/** The records shared by the chat widget and the gateway (src/types.ts). */
module Types {
  import opened Wrappers

  /** A webinar as the page describes it; `topics` keeps its order. */
  datatype Webinar = Webinar(
    id: string,
    title: string,
    description: string,
    videoUrl: string,
    date: string,
    duration: string,
    thumbnail: string,
    topics: seq<string>)

  /** Who produced a chat turn. */
  datatype Role = User | Model | System

  /** One chat turn. `isError` is optional in the source: `None` is an absent flag.
      The creation timestamp is not modelled. */
  datatype ChatMessage = ChatMessage(id: string, role: Role, text: string, isError: Option<bool>)
}
