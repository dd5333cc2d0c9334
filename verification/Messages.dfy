/** Messages exchanged with the model. */
module Messages {

  /** A tool call with its serialized form. */
  datatype Call = Call(id: string, name: string, text: string)

  datatype Role = User | Assistant | System

  /** Images are counted, not shown. */
  datatype Message =
    | ChatMessage(role: Role, content: string, images: nat, calls: seq<Call>)
    | ToolMessage(callId: string, name: string, content: string)

  function Commas(calls: seq<Call>): string {
    if |calls| == 0 then "" else if |calls| == 1 then calls[0].text else calls[0].text + "," + Commas(calls[1..])
  }

  /** The serialized list of calls. */
  function CallsText(calls: seq<Call>): string {
    "[" + Commas(calls) + "]"
  }

  function CallIds(calls: seq<Call>): (r: seq<string>)
    ensures |r| == |calls| && forall i :: 0 <= i < |r| ==> r[i] == calls[i].id
  {
    seq(|calls|, i requires 0 <= i < |calls| => calls[i].id)
  }

  function UserText(content: string): Message {
    ChatMessage(User, content, 0, [])
  }

  /** Replacing the text keeps role, calls and call identity; images are dropped. */
  function WithText(m: Message, content: string): Message {
    match m
    case ToolMessage(id, name, _) => ToolMessage(id, name, content)
    case ChatMessage(role, _, _, calls) => ChatMessage(role, content, 0, if role.Assistant? then calls else [])
  }
}
