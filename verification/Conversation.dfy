/** The messages of a conversation, as far as compaction and history read them. */
module Conversation {
  import opened Text

  datatype Role = System | User | Assistant | Tool

  datatype Function = Function(name: string, arguments: string)

  datatype Call = Call(id: string, fn: Option<Function>)

  datatype ContentPart = TextPart(text: string) | ImagePart | OtherPart

  datatype Content = NoContent | Words(text: string) | Parts(parts: seq<ContentPart>)

  /** `steer`: sent mid-turn. `check`: a done-check's feedback, which no window numbers. */
  datatype Message = Message(role: Role, content: Content, calls: seq<Call>, callId: string,
                             reasoning: string, details: string, steer: bool, check: bool)

  /** `content_as_text`. */
  function ContentText(c: Content): string {
    match c
    case NoContent => ""
    case Words(text) => text
    case Parts(parts) => Join(TextsOf(parts), "\n")
  }

  function TextsOf(parts: seq<ContentPart>): seq<string> {
    if parts == [] then []
    else (if parts[0].TextPart? then [parts[0].text] else []) + TextsOf(parts[1..])
  }

  predicate StartsTurn(m: Message) {
    m.role.User? && !m.steer
  }

  /** Index of the user message that started the running turn, or 0. */
  function TurnStart(ms: seq<Message>): (at: nat)
    ensures at <= |ms| && (ms != [] ==> at < |ms|)
    ensures forall i | at < i < |ms| :: !StartsTurn(ms[i])
    ensures ms != [] && !StartsTurn(ms[at]) ==> at == 0 && forall i | 0 <= i < |ms| :: !StartsTurn(ms[i])
  {
    if ms == [] then 0
    else if StartsTurn(ms[|ms| - 1]) then |ms| - 1
    else TurnStart(ms[..|ms| - 1])
  }

  method TurnStartIndex(ms: seq<Message>) returns (at: nat)
    ensures at == TurnStart(ms)
  {
    var i := |ms|;
    assert ms[..|ms|] == ms;
    while i > 0
      invariant 0 <= i <= |ms| && TurnStart(ms[..i]) == TurnStart(ms)
    {
      i := i - 1;
      assert ms[..i + 1][..i] == ms[..i];
      if ms[i].role.User? && !ms[i].steer {
        return i;
      }
    }
    at := 0;
  }
}
