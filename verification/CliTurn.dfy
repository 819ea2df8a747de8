/** One turn of a headless run, folded from its session's events (core/tstd/cli_turn.py). */
module CliTurn {
  import opened Text
  import opened RedactionMatch

  /** An event, and whether it names the run's own session. */
  datatype Event = Event(mine: bool, what: What)

  datatype What =
    | Failure(code: string)
    | UserTurned(content: string, permitted: bool)
    | Delta(text: string, response: Option<string>)
    | Retracted(named: Option<string>)
    | Called(callId: string, tool: string)
    | Resulted(ofCall: string, error: bool, errorCode: string)
    | Spent(cost: int)
    | NeedsPerson
    | Completed(failed: bool, because: Option<string>, total: int)
    | Other

  datatype Status = Success | Refused | ApprovalNeeded | Failed

  datatype Chunk = Chunk(response: Option<string>, text: string)

  datatype Refusal = Refusal(tool: string, code: string)

  datatype Outcome = Outcome(status: Status, reply: string, cost: int, code: Option<string>)

  const REFUSAL_CODES := {"boundary_refusal", "policy_denied", "approval_denied", "plan_mode", "hook_blocked"}
  const EXTERNAL_IMPORT := "external-import:"

  function TextOf(chunks: seq<Chunk>): string {
    if chunks == [] then "" else TextOf(chunks[..|chunks| - 1]) + chunks[|chunks| - 1].text
  }

  /** A response the daemon withdrew leaves the reply. */
  function Withdraw(chunks: seq<Chunk>, named: Option<string>): seq<Chunk> {
    if chunks == [] then []
    else
      var last := chunks[|chunks| - 1];
      Withdraw(chunks[..|chunks| - 1], named) + if last.response.None? || last.response != named then [last] else []
  }

  /** What a run of events leaves of the reply. */
  function ReplyOf(events: seq<What>): seq<Chunk> {
    if events == [] then []
    else
      var last, front := events[|events| - 1], ReplyOf(events[..|events| - 1]);
      match last
      case Delta(text, response) => front + [Chunk(response, text)]
      case Retracted(named) => Withdraw(front, named)
      case _ => front
  }

  /** The streamed chunks that no later event withdraws, in order. */
  function Standing(events: seq<What>, i: nat): seq<Chunk>
    requires i <= |events|
    decreases |events| - i
  {
    if i == |events| then []
    else
      (if events[i].Delta? && !WithdrawnLater(events, i + 1, events[i].response)
        then [Chunk(events[i].response, events[i].text)] else [])
      + Standing(events, i + 1)
  }

  predicate WithdrawnLater(events: seq<What>, from: nat, response: Option<string>) {
    response.Some? && exists j | from <= j < |events| :: events[j].Retracted? && events[j].named == response
  }

  lemma {:induction false} WithdrawConcat(a: seq<Chunk>, b: seq<Chunk>, named: Option<string>)
    ensures Withdraw(a + b, named) == Withdraw(a, named) + Withdraw(b, named)
    decreases |b|
  {
    if b == [] {
      assert a + b == a;
    } else {
      assert (a + b)[..|a + b| - 1] == a + b[..|b| - 1];
      WithdrawConcat(a, b[..|b| - 1], named);
    }
  }

  lemma OneWithdrawn(c: Chunk, named: Option<string>)
    ensures Withdraw([c], named) == if c.response.None? || c.response != named then [c] else []
  {
    assert [c][..0] == [];
    assert Withdraw([c], named) == [] + if c.response.None? || c.response != named then [c] else [];
  }

  /** One more event, seen from the chunks before it. */
  lemma {:induction false} StandingMore(events: seq<What>, e: What, i: nat)
    requires i <= |events|
    ensures Standing(events + [e], i) ==
            match e
            case Delta(text, response) => Standing(events, i) + [Chunk(response, text)]
            case Retracted(named) => Withdraw(Standing(events, i), named)
            case _ => Standing(events, i)
    decreases |events| - i
  {
    var more := events + [e];
    if i == |events| {
      assert Standing(more, i + 1) == [];
      assert !WithdrawnLater(more, i + 1, None);
    } else {
      StandingMore(events, e, i + 1);
      var d := events[i];
      assert more[i] == d;
      var head := if d.Delta? && !WithdrawnLater(events, i + 1, d.response) then [Chunk(d.response, d.text)] else [];
      var rest := Standing(events, i + 1);
      if d.Delta? {
        assert WithdrawnLater(more, i + 1, d.response)
               <==> (WithdrawnLater(events, i + 1, d.response)
                     || (d.response.Some? && e.Retracted? && e.named == d.response)) by {
          assert more[|events|] == e;
          assert forall j | i + 1 <= j < |events| :: more[j] == events[j];
        }
      }
      if e.Delta? {
        assert head + (rest + [Chunk(e.response, e.text)]) == (head + rest) + [Chunk(e.response, e.text)];
      } else if e.Retracted? {
        WithdrawConcat(head, rest, e.named);
        if head != [] { OneWithdrawn(head[0], e.named); }
      }
    }
  }

  /** The reply is every streamed chunk but those of a response withdrawn after it. */
  lemma {:induction false} ReplyStands(events: seq<What>)
    ensures ReplyOf(events) == Standing(events, 0)
    decreases |events|
  {
    if events == [] {
    } else {
      var front, last := events[..|events| - 1], events[|events| - 1];
      ReplyStands(front);
      StandingMore(front, last, 0);
      assert front + [last] == events;
    }
  }

  /** `_TurnReader`: what has been seen of the turn so far. */
  class TurnReader {
    const content: Option<string>
    const permissionsSent: bool
    var ours: bool
    var turnChecked: bool
    var reply: seq<Chunk>
    var cost: int
    var refusals: seq<Refusal>
    var toolNames: map<string, string>
    /** The events of the turn itself, once it has begun. */
    ghost var seen: seq<What>

    ghost predicate Valid()
      reads this
    {
      reply == ReplyOf(seen)
    }

    constructor (content: Option<string>, ours: bool, permissionsSent: bool)
      ensures Valid() && seen == [] && this.ours == ours && this.content == content
              && this.permissionsSent == permissionsSent
      ensures refusals == [] && !turnChecked
    {
      this.content, this.ours, this.permissionsSent, turnChecked := content, ours, permissionsSent, false;
      reply, cost, refusals, toolNames, seen := [], 0, [], map[], [];
    }

    function Ended(status: Status, code: Option<string>): Outcome
      reads this
    {
      Outcome(status, TextOf(reply), cost, code)
    }

    /**
     `feed`: an outcome once the turn has ended. Until the run's own message is seen, events of
     an earlier turn change nothing; then the reply is what stands of the turn's chunks.
     */
    method Feed(e: Event) returns (outcome: Option<Outcome>)
      requires Valid()
      modifies this
      ensures Valid()
      ensures !e.what.Failure? && !old(ours) && !(e.mine && e.what.UserTurned? && content.Some?) ==>
                outcome == None && seen == old(seen) && ours == old(ours) && refusals == old(refusals)
      ensures ours && !old(ours) ==>
                e.what.UserTurned? && content.Some?
                && (e.what.content == content.value
                   || (FindText(e.what.content, REDACTED, 0).Some? && Unredacts(e.what.content, content.value)))
      ensures outcome.Some? ==> outcome.value.reply == TextOf(Standing(seen, 0))
      ensures old(ours) && e.mine && !e.what.Failure? ==> seen == old(seen) + [e.what]
      ensures outcome.Some? && outcome.value.status == Success ==>
              e.what.Completed? && !e.what.failed && refusals == [] == old(refusals)
      ensures outcome.Some? && outcome.value.status == Refused ==>
                e.what.Completed? && !e.what.failed && refusals != [] && outcome.value.code == Some(refusals[0].code)
      ensures |refusals| >= |old(refusals)| && refusals[..|old(refusals)|] == old(refusals)
    {
      ReplyStands(seen);
      if e.what.Failure? {
        return Some(Ended(Failed, Some(e.what.code)));
      }
      if !e.mine {
        return None;
      }
      if !ours {
        if !e.what.UserTurned? || content.None? {
          return None;
        }
        var same := IsSentMessage(e.what.content, content.value);
        if !same {
          return None;
        }
        ours := true;
      }
      seen := seen + [e.what];
      assert seen[..|seen| - 1] == old(seen);
      ReplyStands(seen);
      match e.what {
        case UserTurned(_, permitted) =>
          if !turnChecked {
            turnChecked := true;
            if permissionsSent && !permitted {
              return Some(Ended(Failed, Some("run_permissions_unsupported")));
            }
          }
        case NeedsPerson => return Some(Ended(ApprovalNeeded, Some("approval_needed")));
        case Called(callId, tool) => toolNames := toolNames[callId := tool];
        case Resulted(ofCall, error, errorCode) =>
          if error && errorCode in REFUSAL_CODES {
            var tool := if ofCall in toolNames && toolNames[ofCall] != "" then toolNames[ofCall]
                        else if Occurs(ofCall, EXTERNAL_IMPORT, 0) then "external_import" else "tool";
            refusals := refusals + [Refusal(tool, errorCode)];
          }
        case Spent(spent) => cost := spent;
        case Retracted(named) => reply := Withdraw(reply, named);
        case Delta(text, response) => reply := reply + [Chunk(response, text)];
        case Completed(failed, because, total) =>
          cost := total;
          if failed {
            return Some(Ended(Failed, if because.Some? && because.value != "" then because else Some("turn_failed")));
          }
          if because == Some("hook_blocked") {
            refusals := refusals + [Refusal("user_prompt", "hook_blocked")];
          }
          return Some(if refusals != [] then Ended(Refused, Some(refusals[0].code)) else Ended(Success, None));
        case _ =>
      }
      outcome := None;
    }
  }
}
