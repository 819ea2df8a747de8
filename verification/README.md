# The daemon's in-place editors and protocols, modelled and proved

Dafny models of the parts of `core/tstd` that work on plain text, lists and small state machines,
with their laws proved for every input, every run or every reachable state. Check all of it with
`dafny verify dfyconfig.toml`.

What the modules model, by theme:

- **The YAML splicer.** `YamlValue` holds values and the plain edits `_with` and `_without`; `YamlEmit` and
  `YamlBlock` write values and read them back; `YamlTree` is a lossless document tree (flow and block mappings and
  lists, plain and double-quoted scalars, literal blocks, comments and blank lines) with its printer and what makes a
  tree well formed (its layout, and the spelling of its scalars); `YamlMarks` says which marks a composer may report
  for a printed tree; `YamlEdit` is `set_value` and `remove_value` on characters. `YamlSplice`, `YamlSplicePrints`,
  `YamlSetPrints`, `YamlRemove`, `YamlRemovePrints` and `YamlRemoveWalk` prove that the characters sliced are the
  printing of an edited tree; `YamlBuild`, `YamlFits` and `YamlRemoveFits` prove when that tree is well formed;
  `YamlUndo`, `YamlBreaks`, `YamlAppend`, `YamlMisfits` and `YamlSwallow` hold the laws between edits and the edits
  that misread. `YamlFlowUnique` and `YamlUnique` prove that the printing of a well-formed tree has no other reading,
  and `YamlReadBack` what that says of an edited text.
- **Compaction and turn numbering.** `Conversation`, `CompactionText`, `Compaction`, `CompactionRuns`.
- **History before a window.** `HistoryRows`, `ChatHistory`.
- **The bridge.** `BridgeWire` (ids and rewriting), `BridgeLane` (the lane and its socket, as classes), `BridgeRuns`
  (a lane over any run of viewer, clock and an adversarial network), `BridgeMachine` (whose answer an answer is),
  `Bridge` (where a verb goes).
- **Headless turns.** `RedactionMatch`, `CliTurn`.
- **Document text.** `Docx`.
- **Line editors.** `ConfigWrite`, `CardWrite`.
- **The audit ledger.** `Audit` (the writer, its queue and the store), `AuditQueries` (the sums over it).
- **The smoke script's WebSocket client.** `WebSocketFrames`, by sections 5.2 and 5.3 of RFC 6455.
- `Text` and `Decimal` are shared.

Where the source changes state, the model is a class or a loop whose contract ties the new state to a
specification function, and the laws are lemmas about that function.

## Where the code and its promises part

Each of these is a lemma with the input that shows it, or a condition the main theorem names:

- `set_value` returns the printing of a tree with the new value, and that tree is well formed exactly when
  `YamlFits.DocFits` holds, a condition on the document, the path and the value alone (`YamlFits.EditDocOk`); then the
  text reads as that value and no other (`YamlReadBack.SetReadsAs`). The edits it shuts out, which are left to the
  editor's own read-back check, are: a mapping put over a key's list that is not indented, whose keys spill beside the
  key (`YamlMisfits.FlatListMisread`); a list item's mapping that does not start two columns right of its dash; an
  empty item whose new value would touch its dash; a text put over a literal block that takes in the comments under
  it, where none further left has ended the block before them, or that ends in a line break at the end of the file
  (`YamlSwallow.CommentOvergrown`); a plain scalar put before a comment that touches it in a flow collection; and a
  key that starts more than 1024 characters before its colon (YAML 1.2, section 7.4.2).
- Removing a key between a literal block and comments as deep as the block's text makes the comments part of the block
  (`YamlSwallow.CommentSwallowed`), but for those behind a comment further left, which ends it.
  `YamlRemoveFits.RemoveDocOk` says, of the document and the path alone, exactly which removals land.
- Adding a block key and removing it gives the same text exactly when the next line break is the file's own
  (`YamlUndo.UndoneDoc`); a top-level key leaves behind the blank line it was given (`YamlUndo.TopKeyLeavesBlank`).
- `summary_core` gives a core back exactly when it holds no mark, nor ends in one that what is appended completes
  (`CompactionText.CoreReadsBack`).
- An automatic compaction of a conversation that begins with a message of tool calls parts them from their results
  (`Compaction.AutoKeepsGroups`, both directions).
- The id pattern's `$` also matches before a final line break, so such an id loses it (`BridgeWire.JoinSplit`).
- A lane's old socket that comes up while it is being replaced takes the waiting verbs with it
  (`BridgeRuns.VerbLost`): a run accounts for every verb exactly when that does not happen (`VerbsAccounted`).
- A re-pairing can race in two ways: the new socket opens while the old one still carries a session, or the old one
  comes up when the new one carries it and attaches the session there again. Behind every such step lies a run,
  without another race in it, that shows an event twice (`BridgeRuns.ShownTwice`). A step is safe, whatever may follow
  it, exactly when it is no race (`StepSafe`), and a run throughout exactly when none of its steps is
  (`StreamsExactly`). One re-pairing reaches such a state (`RaceReached`).
- A `list_sessions` answered by an error, behind an approval that was answered by nothing, sends that error to the
  approval's viewer (`BridgeMachine.StepMirrors` for a step and `RunMirrors` for runs, both directions).
- `_block_bounds` ends a block at a comment at or left of the header's indent, though its docstring lets comments
  through (`ConfigWrite.CommentsEndBlocks`, both directions; `CommentEndsBlock` at one file). A save then writes the
  key a second time, exactly when such a comment stands above its live line (`ConfigWrite.SecondLiveLine`), and
  refuses a tier the file declares exactly when one stands between `presets:` and the preset or between the preset and
  the tier (`ConfigWrite.TierMissed`).
- `_set_key` writes a value against the colon when the line had no value and no blank to spare
  (`CardWrite.TouchesColon`, both directions).
- A steer of a turn that is cancelled carries the index of the turn after it (`Audit.SteerOutlivesTurn`).
- While audit writes keep failing, only the first failure is told. Over every run the sessions told are those that
  hear a failure that opens a streak (`Audit.ToldExactly`), and a session that loses a row is told within the streak
  if and only if it was attached when the streak opened and the opening failure was its own or that of a session no
  one attached (`Audit.LossUntold`). `Audit.SecondSessionUntold` is a run in which a loss goes untold.
- A history without rows is called whole even where the one message before the window was too large for the frame
  (`ChatHistory.HistoryBeforeWindow`).

## Model

| member | source | states |
|---|---|---|
| YamlEmit.QuoteReads | core/tstd/config_yaml_emit.py:24-39 | a text through both escaping passes, followed by anything, reads back as that text and leaves what follows |
| YamlEmit.ScalarTextReads | core/tstd/config_yaml_emit.py:42-66 | every scalar written reads back as itself, and all but strings read back as plain scalars |
| YamlEmit.KeyTextReads | core/tstd/config_yaml_emit.py:79-88 | a key's text, plain or quoted, stands for that string |
| YamlBuild.KeyTextOk | core/tstd/config_yaml_emit.py:79-88 | and YAML reads it as a key if and only if the text is at most 1024 characters |
| YamlEmit.FlowRoundTrip | core/tstd/config_yaml_emit.py:69-76 | every nested value in flow style reads back as itself and leaves what follows |
| YamlBlock.BlockScalarReads | core/tstd/config_yaml_emit.py:124-142 | a text written as a literal block (YAML 1.2, section 8.1) reads back from the block's header, indentation and chomping |
| YamlBlock.CollectItemLines | core/tstd/config_yaml_emit.py:108-121 | the loop that fills and patches one list yields the lines item by item |
| YamlBlock.Nest | core/tstd/config_yaml_emit.py:145-154 | the loop from the last part outwards builds the nested value, or fails on an index that is not 0 |
| YamlBlock.NestedIsWith | core/tstd/config_yaml_emit.py:145-154 | the nested value is what a plain edit of null builds along the same path |
| YamlBuild.FlowNodePrints | core/tstd/config_yaml_emit.py:69-76 | flow text is the printing of the flow tree of the value |
| YamlBuild.BlockPrints | core/tstd/config_yaml_emit.py:95-121 | entry and item lines are the printing of the block tree of the value |
| YamlBuild.BlockNodeValue | core/tstd/config_yaml_emit.py:95-121 | the block tree built for a value denotes that value |
| YamlEdit.StripBackLoop | core/tstd/config_yaml_nodes.py:84-88 | the backward scan stops one past the last character that is no white space |
| YamlEdit.FindKeyLoop | core/tstd/config_yaml_nodes.py:149-169 | the scan of a mapping finds the one matching key, none, or refuses a key listed twice |
| YamlEdit.WalkLoop | core/tstd/config_yaml_nodes.py:172-200 | the walk over marks ends at the slots and node the path names, or with its error |
| YamlMarks.ContentEndIn | core/tstd/config_yaml_nodes.py:73-93 | a node's content end lies in its own text, with no line break between it and the text's end |
| YamlSplicePrints.SiteEnd | core/tstd/config_yaml_nodes.py:49-93 | what the position helpers answer at a child is where the tree puts that child's end and its line's end |
| YamlSplicePrints.ReplacePrints | core/tstd/config_yaml_edit.py:109-175 | replacing a value by slicing prints the tree with that child's value replaced, in all six branches |
| YamlSetPrints.AppendPrints | core/tstd/config_yaml_edit.py:178-193 | appending by slicing prints the tree with one item more |
| YamlSetPrints.InsertPrints | core/tstd/config_yaml_edit.py:196-221 | inserting by slicing prints the tree with one entry more |
| YamlSetPrints.SetValueSplices | core/tstd/config_yaml_edit.py:59-88 | for every document, path, value and marks a composer may report, `set_value` is the printing of the edited tree, and refuses exactly when and why the tree's edit does |
| YamlSplice.EditDocValue | core/tstd/config_editor_plan.py:163-181 | the edited tree's value is `_with` of the old value |
| YamlFits.EditDocOk | core/tstd/config_yaml_edit.py:59-221 | the edited tree is well formed if and only if a condition on the document, the path and the value holds, one clause for each way an edit misreads |
| YamlFits.SetValueReadsBack | core/tstd/config_editor.py:257-261 | whenever `set_value` does not refuse, its text prints a document whose value is `_with(old, path, value)`, well formed exactly when the edit fits |
| YamlUnique.DocUnique | core/tstd/config_editor.py:257-261 | the printer is unambiguous: two well-formed documents with the same text have the same value, through comments, blank lines, indentation, literal blocks and both styles |
| YamlFlowUnique.FlowUnique | core/tstd/config_yaml_emit.py:69-76 | the same of a scalar or flow collection with anything behind it: its value and what follows it are the same in every reading |
| YamlReadBack.SetReadsAs | core/tstd/config_editor.py:257-261 | where the edit fits, every well-formed document with the text `set_value` returns has the value `_with(old, path, value)` |
| YamlReadBack.RemoveReadsAs | core/tstd/config_editor.py:257-261 | where the removal fits, every well-formed document with the text `remove_value` returns has the value `_without(old, path)` |
| YamlMisfits.FlatListMisread | core/tstd/config_yaml_edit.py:109-143 | the same text is also the printing of a well-formed document with another value: an edit that does not fit |
| YamlRemovePrints.LaterPrints | core/tstd/config_yaml_edit.py:224-258 | cutting a later block child's lines prints the tree without it |
| YamlRemovePrints.CompactPrints | core/tstd/config_yaml_edit.py:261-273 | removing the first key of a mapping in a list prints the tree whose next key stands after the dash |
| YamlRemovePrints.FlowMidPrints | core/tstd/config_yaml_edit.py:276-288 | removing a flow child before the last prints the tree without it |
| YamlRemovePrints.FlowLastPrints | core/tstd/config_yaml_edit.py:276-288 | removing the last flow child prints the tree without it |
| YamlRemoveWalk.RemoveValueSplices | core/tstd/config_yaml_edit.py:224-258 | for every document, path and composer's marks, `remove_value` is the printing of the tree without the value, and refuses exactly when and why the tree's removal does |
| YamlRemove.RemoveDocValue | core/tstd/config_editor_plan.py:184-187 | the tree after a removal has the value `_without` gives, a collection left empty as `{}` or `[]`; a path that names nothing changes nothing |
| YamlRemoveFits.RemoveDocOk | core/tstd/config_yaml_edit.py:224-288 | that tree is well formed if and only if, in the document before it, no literal block stands over lines it would take in, and no plain scalar comes to touch a comment |
| YamlRemoveFits.RemoveValueReadsBack | core/tstd/config_editor.py:257-261 | whenever `remove_value` does not refuse, its text prints a document whose value is `_without(old, path)`, well formed exactly when the removal fits |
| YamlSwallow.CommentSwallowed | core/tstd/config_yaml_edit.py:224-258 | a removal that does not fit: its text also prints a well-formed document with another value |
| YamlSwallow.CommentOvergrown | core/tstd/config_yaml_edit.py:109-143 | a text put over a literal block that does not fit: its text also prints a well-formed document in which the comments below are part of the block |
| YamlUndo.UndoneDoc | core/tstd/config_yaml_edit.py:196-258 | inserting a key and removing it restores the document if and only if it went into a flow collection or the next line break is the file's own |
| YamlUndo.RemoveUndoesInsert | core/tstd/config_yaml_edit.py:196-258 | on characters: `remove_value` after a `set_value` that fits returns the original text exactly |
| YamlUndo.TopKeyLeavesBlank | core/tstd/config_yaml_edit.py:217-258 | a new top-level block key and its removal leave exactly one blank line, the one put before it |
| YamlBreaks.SetKeepsBreaks | core/tstd/config_yaml_nodes.py:136-146 | no edit writes a Unicode line break, so an accepted text stays acceptable whatever value is written |
| YamlAppend.AppendDocumentReadsBack | core/tstd/config_yaml_edit.py:91-98 | on a file of comments only, the result is the printing of a document with `_with({}, path, value)`, well formed exactly when no key is too long for YAML, and refused exactly for a first part that is no key or a list not begun at 0 |
| Compaction.WindowUserTurns | core/tstd/compaction.py:216-237 | the loop yields, turn by turn, each user message's index and None for every turn inside a summary |
| Compaction.CountUserTurns | core/tstd/compaction.py:240-248 | the loop counts user messages that are no checks and the turns summaries stand for |
| Compaction.EstimateTokens | core/tstd/compaction.py:141-182 | the loop's total over texts, calls and images is the specified sum |
| Compaction.SummaryStandsFor | core/tstd/compaction.py:251-270 | a summary is counted as the turns it was written for, whatever body, carry and files it holds |
| Compaction.AutoFoldsSpan | core/tstd/compaction.py:301-359 | an automatic compaction folds exactly the span `auto_span` names, or leaves the conversation as it is |
| Compaction.RunningTurnStays | core/tstd/compaction.py:185-198 | the last user message that is no steer and all after it survive verbatim and in order, and so does the first message |
| Compaction.FoldNumbers | core/tstd/compaction.py:216-237 | through a fold there are as many turns, each before it where it was, each inside it None, each after it moved with its message |
| Compaction.AutoKeepsGroups | core/tstd/compaction.py:273-359 | calls and results that were unbroken stay so if and only if nothing is folded or the conversation does not open with tool calls |
| Compaction.RequestKeepsGroups | core/tstd/compaction.py:362-417 | a compaction on request never breaks a group |
| CompactionRuns.RunNumbers | core/tstd/compaction.py:216-417 | over any run of appends and both compactions, the numbering grows by appended user messages only; turn n names the same message until a compaction of the run folds it, exactly then names none, and none ever after |
| CompactionRuns.NumbersNameTurns | core/tstd/compaction.py:216-237 | a number that names a message names a user message that is no check |
| CompactionRuns.StepKeepsGroups | core/tstd/compaction.py:320-417 | whole groups, and not opening with calls, are kept by every compaction |
| CompactionText.HeaderReads | core/tstd/compaction_text.py:46-80 | whatever follows the first line, the count in it reads back |
| CompactionText.ExtractKeepsCount | core/tstd/compaction_text.py:89-145 | the count survives the cap if and only if its line fits under it |
| CompactionText.CountsFit | core/tstd/compaction_text.py:26-51 | every count of up to 1900 digits fits |
| CompactionText.RenderExtractive | core/tstd/compaction_text.py:89-145 | the loop that deletes lines while over the cap renders the specified lines |
| CompactionText.FitKeepsMost | core/tstd/compaction_text.py:132-141 | what is left is the lines without the oldest off-topic ones, no more of them than the cap asks for |
| CompactionText.FittedOnce | core/tstd/compaction_text.py:132-141 | how many go is fixed by the cap, so what is left is too |
| CompactionText.HitsStay | core/tstd/compaction_text.py:132-141 | a line on the guidance's topic is never dropped |
| CompactionText.CoreReadsBack | core/tstd/compaction_text.py:59-74 | `summary_core(compose(core, ...)) == core` if and only if neither mark occurs in the core, or across its end |
| HistoryRows.NewestRows | core/tstd/chat_history_rows.py:36-59 | the rows returned are a suffix within both caps, one more is over one of them, and truncation is reported exactly when a row was left out |
| HistoryRows.NewestIsLongest | core/tstd/chat_history_rows.py:36-59 | no longer suffix fits |
| HistoryRows.TurnOwners | core/tstd/chat_history.py:95-112 | the loop yields each turn's owner: its own message, or the summary it is inside |
| HistoryRows.OwnersAgree | core/tstd/chat_history.py:95-112 | owners and window numbering have the same length, agree where the numbering is not None, name a summary elsewhere, and never step back |
| HistoryRows.HistoryAccounts | core/tstd/chat_history.py:221-233 | an untruncated history's user rows and folded turns sum to the window's first turn |
| HistoryRows.NumbersBelow | core/tstd/chat_history_rows.py:62-85 | when the numbering matches exactly, every user row is numbered, below that turn |
| ChatHistory.Blocked | core/tstd/chat_history.py:115-133 | the loop collects exactly the user turns a hook blocked and the notes that say so |
| ChatHistory.FindBoundary | core/tstd/chat_history.py:136-205 | the loop over the window finds the first event that places it |
| ChatHistory.FirstPlaceDecides | core/tstd/chat_history.py:136-205 | the first event that is a call, a result or a turn no hook blocked decides where the history ends, by its kind and by whether a reply was streaming before it; no other event does |
| ChatHistory.PastResults | core/tstd/chat_history.py:247-252 | the scan passes exactly the results that follow |
| ChatHistory.LastReplyBefore | core/tstd/chat_history.py:255-263 | the backward scan stops at the reply before a turn |
| ChatHistory.FindReply | core/tstd/chat_history.py:266-307 | the scan finds the newest reply whose text ends in the chunks shown |
| ChatHistory.StreamedReplyStaysOut | core/tstd/chat_history.py:188-205 | where the window opens with the end of a reply and then a turn, the history ends at the last reply of the turn before, and with the turn itself only where that turn has no reply |
| ChatHistory.CallPlaces | core/tstd/chat_history.py:236-244 | a call's id places the window if and only if it is not empty and exactly one message holds it |
| ChatHistory.HistoryBeforeWindow | core/tstd/chat_history.py:58-92 | a history is given if and only if window and conversation line up, and then it is the newest rows before the boundary, its turns and the window's sum to the conversation's, and numbered rows stay below the boundary |
| BridgeWire.SplitJoined | core/tstd/bridge_wire.py:37-54 | a bridged id splits into its own parts |
| BridgeWire.JoinSplit | core/tstd/bridge_wire.py:37-54 | the parts join into the id again if and only if it does not end in a line break |
| BridgeWire.RewritesOnlyIds | core/tstd/bridge_wire.py:83-94 | under every path: same shape, same order, every nonempty session id suffixed once, all else as it was |
| BridgeWire.StripRestores | core/tstd/bridge_wire.py:83-94 | stripping the suffix restores any frame |
| BridgeWire.SessionFramesPass | core/tstd/bridge_wire.py:155-206 | a session's frame is never dropped, its ids are suffixed and nothing else changes but an error's machine, and the inverse gives computer and raw id back |
| BridgeWire.DroppedExactly | core/tstd/bridge_wire.py:155-206 | a frame is dropped if and only if it has no kind, its id is bridged already, or it names no session and is of no kept, well-formed kind |
| BridgeWire.OneHop | core/tstd/bridge_wire.py:155-206 | a session's frame that came over one bridge is dropped at the next, and a list of sessions arrives there without a row |
| BridgeWire.CollectRows | core/tstd/bridge_wire.py:97-115 | the loop over session rows yields the rewritten rows and skips the rest |
| BridgeWire.RowsBridged | core/tstd/bridge_wire.py:97-115 | every row shown names that computer and has an id that splits into its own parts |
| BridgeLane.Link.Send | core/tstd/bridge_link.py:176-181 | a frame joins the outbox exactly when the link is open, and the caller is told |
| BridgeLane.Lane.AttachSession | core/tstd/bridge_lane.py:115-121 | the whole new state, as the step function gives it |
| BridgeLane.Lane.DetachSession | core/tstd/bridge_lane.py:123-127 | the whole new state, as the step function gives it |
| BridgeLane.Lane.Enqueue | core/tstd/bridge_lane.py:129-139 | taken exactly below the limit, at the end of the queue, with the timer set |
| BridgeLane.Lane.Expire | core/tstd/bridge_lane.py:141-154 | the timer's loop fails the old verbs from the front and sets the timer for the rest |
| BridgeLane.Lane.Open | core/tstd/bridge_link.py:315-355 | a fresh outbox, then re-attaches and the whole queue, with nothing in between |
| BridgeLane.Lane.Frame | core/tstd/bridge_lane.py:170-188 | the seq recorded and the event delivered in one step |
| BridgeLane.Lane.Relink | core/tstd/bridge_lane.py:202-213 | the lane keeps what it knows and has a new socket |
| BridgeLane.Lane.Stop | core/tstd/bridge_lane.py:215-223 | every waiting verb fails once |
| BridgeRuns.StepSound | core/tstd/bridge_lane.py:97-223 | every step keeps the ledger of verbs and the queue's invariant, if and only if it is not an old socket coming up over a waiting queue |
| BridgeRuns.VerbsAccounted | core/tstd/bridge_lane.py:129-168 | over any run, each accepted verb was handed over once or failed once, in order, or still waits, and the queue is bounded, FIFO, empty while open, and timed while not empty: if and only if no socket being replaced came up over a waiting queue |
| BridgeRuns.TimerQueue | core/tstd/bridge_lane.py:141-148 | after the timer nothing waits that is as old as the wait allows |
| BridgeRuns.StopSettles | core/tstd/bridge_lane.py:215-223 | a stopped lane leaves no verb without a fate |
| BridgeRuns.VerbLost | core/tstd/bridge_lane.py:202-213 | a run in which an accepted verb is neither handed over, failed nor waiting |
| BridgeRuns.StepStreams | core/tstd/bridge_lane.py:156-213 | no step that is not the viewer's own breaks a session's stream but a race of a re-pairing, also with both sockets up |
| BridgeRuns.StepSafe | core/tstd/bridge_lane.py:115-213 | after a step every run without a race shows the events in order, if and only if the step is no race |
| BridgeRuns.StreamsExactly | core/tstd/bridge_lane.py:115-213 | every state of a run is safe in that sense if and only if no step of the run is a race |
| BridgeRuns.NoGapNoRepeat | core/tstd/bridge_lane.py:115-213 | after one attach from k, across any drops, re-dials and re-pairings without a race, the events shown are k, k+1, k+2, ... |
| BridgeRuns.ShownTwice | core/tstd/bridge_lane.py:195-213 | behind every race, an attach still queued on the old socket included, lies a run without one that shows an event twice |
| BridgeRuns.RaceReached | core/tstd/bridge_lane.py:202-213 | a run from a new lane to a race |
| BridgeMachine.Machine.RefreshRows | core/tstd/bridge_machine.py:157-165 | one unforced list request waits at a time |
| BridgeMachine.Machine.Approve | core/tstd/bridge_machine.py:179-186 | an approval and a forced list request, or nothing, by whether the link is open |
| BridgeMachine.Machine.Handle | core/tstd/bridge_machine.py:193-218 | the whole new state and the deliveries for each kind of answer |
| BridgeMachine.StepMirrors | core/tstd/bridge_machine.py:157-218 | the routes mirror what is unanswered after every step, if and only if the step is no list refused behind a silent approval; and that error's wrong receiver |
| BridgeMachine.StartMirrors | core/tstd/bridge_machine.py:157-218 | a machine that never linked mirrors, so the runs below start somewhere |
| BridgeMachine.RunMirrors | core/tstd/bridge_machine.py:157-218 | over any run the routes are exactly what is unanswered and every error went to the viewer that sent the approval, with its session, at every moment, if and only if no list is refused behind a silent approval |
| Bridge.Hub.Forward | core/tstd/bridge.py:276-329 | the reply, the viewer's lane and the control link after one verb; every other lane is as it was |
| Bridge.ForwardedRight | core/tstd/bridge.py:304-329 | a verb answered at once went nowhere, one not answered went exactly one way, approvals never wait, a parked computer is not dialed |
| RedactionMatch.SplitPieces | core/tstd/cli_turn.py:132-133 | the pieces joined by the marker are the text, and no piece holds a marker |
| RedactionMatch.IsSentMessage | core/tstd/cli_turn.py:123-147 | true if and only if the texts are equal, or there is a marker and some nonempty texts for the markers turn one into the other: greedy placement is sound and complete |
| CliTurn.ReplyStands | core/tstd/cli_turn.py:336-346 | the reply is the chunks streamed but those of a response withdrawn later |
| CliTurn.TurnReader.Feed | core/tstd/cli_turn.py:223-308 | before the run's own message is seen nothing counts; an outcome carries the reply that stands; success means nothing was refused, and a refusal names the first |
| Docx.LoopIsWalk | core/tstd/attachment_office.py:211-256 | from any state, the events of an element add exactly the lines of a recursive walk and leave the three stacks as deep as they were |
| Docx.DocumentRuns | core/tstd/attachment_office.py:211-256 | a whole document gives its walk's lines and ends with empty stacks |
| Docx.ReadEvents | core/tstd/attachment_office.py:218-256 | the loop with its sink: all lines of the run when they fit, and in every case a prefix of them that ends where the next line is over the cap |
| Docx.ReadDocument | core/tstd/attachment_office.py:211-256 | done if and only if the elements and the walk's lines fit their caps, and then the sink holds exactly those lines |
| Docx.Sink.Add | core/tstd/attachment_text.py:31-39 | a line is taken or refused by the exact UTF-8 size of the text, and the counter is that size and within the cap |
| ConfigWrite.BlockBounds | core/tstd/config_write.py:120-134 | the scan ends at the first line that closes the block |
| ConfigWrite.FindKeyLoop | core/tstd/config_write.py:137-147 | the scan finds the first live line of the key at its indent |
| ConfigWrite.File.Save | core/tstd/config_write.py:153-236 | the lines after a save in the live-line, placeholder and insert cases, or the error and no change |
| ConfigWrite.File.Drop | core/tstd/config_write.py:372-388 | the lines without the key's line, or unchanged |
| ConfigWrite.PutGet | core/tstd/config_write.py:206-233 | after a write the key's live line is the one written |
| ConfigWrite.PutPut | core/tstd/config_write.py:206-233 | a second write replaces the first |
| ConfigWrite.OthersKept | core/tstd/config_write.py:206-233 | every other line stays, and a line replaced was the key's or its placeholder |
| ConfigWrite.DropUndoesSave | core/tstd/config_write.py:327-391 | clearing a credential just written restores the file |
| ConfigWrite.CommentsEndBlocks | core/tstd/config_write.py:120-134 | the block found is the whole block, comments aside, if and only if no comment inside stands at or left of the header's indent; otherwise it is shorter and ends at such a comment |
| ConfigWrite.SecondLiveLine | core/tstd/config_write.py:153-236 | a save leaves one live line of the key more than there was exactly when it found none; a block with one live line comes to have two if and only if such a comment stands above it |
| ConfigWrite.TierMissed | core/tstd/config_write.py:191-206 | a save refuses a tier the file declares if and only if a comment at or left of the header's indent stands between `presets:` and the preset or between the preset and the tier; else it finds that tier |
| ConfigWrite.CommentEndsBlock | core/tstd/config_write.py:120-134 | at one file: the key below a comment in the margin is not found and is written again |
| CardWrite.Card.Set | core/tstd/card_write.py:145-161 | the lines after one value, or the refusal and no change |
| CardWrite.Card.SaveAll | core/tstd/card_write.py:42-67 | the loop over the values with the block's end found again after each |
| CardWrite.WriteKeepsEnds | core/tstd/card_write.py:19-21 | after a number is written the line splits around it as before, so a second write replaces the first |
| CardWrite.TouchesColon | core/tstd/card_write.py:145-161 | the value stands against the colon if and only if the line had no blank to spare after it |
| CardWrite.TierEditKeepsBackups | core/tstd/card_write.py:42-126 | values set on the tier never change a fallback entry |
| CardWrite.BackupEditKeepsRest | core/tstd/card_write.py:42-126 | values set on one entry never change the tier or another entry |
| Audit.CallsConserved | core/tstd/audit_writer.py:193-222 | over any run with any failures, each recorded call is stored, queued, buffered or lost, exactly one of them; without failures in the order recorded |
| Audit.EveryCallStored | core/tstd/audit_writer.py:193-222 | with nothing buffered, queued or lost, a session's rows are exactly its recorded calls, each once, in order |
| Audit.CloseStoresAll | core/tstd/audit_writer.py:139-153 | so after `close` with no failed write |
| Audit.TurnTakes | core/tstd/audit_writer.py:301-319 | a turn's row takes the calls recorded since the session's last turn ended |
| Audit.LinksHold | core/tstd/audit_writer.py:305-317 | a call row names a turn row of its own session stored before it, classifier rows none, turn rows numbered apart, whatever fails |
| Audit.MarksKept | core/tstd/audit_writer.py:301-363 | stored and queued turn and steer rows are the session's timeline |
| Audit.TimelineNumbers | core/tstd/audit_writer.py:301-363 | in it turns are 1, 2, 3, ... and a steer takes the next number |
| Audit.SteerNextTurn | core/tstd/audit_writer.py:342-363 | a steer carries the index of the next completed turn |
| Audit.SteerOutlivesTurn | core/tstd/audit_writer.py:342-363 | also when its own turn was cancelled |
| Audit.LostExactly | core/tstd/audit_writer.py:403-412 | rows are lost if and only if some write failed |
| Audit.ToldExactly | core/tstd/audit_writer.py:414-443 | over any run a session is told if and only if some failed write, with every failure before it mended by a completed write, was its own or that of a session no one attached, after it attached |
| Audit.StreakOf | core/tstd/audit_writer.py:414-443 | every failed write is in a streak opened by such a failure |
| Audit.OneStreak | core/tstd/audit_writer.py:414-443 | and in one only |
| Audit.LossUntold | core/tstd/audit_writer.py:414-443 | a session that loses a row is told within the streak if and only if it was attached when the streak opened, and the opening failure was its own or that of a session no one attached |
| Audit.SecondSessionUntold | core/tstd/audit_writer.py:414-443 | a run in which a session loses a row and is not told |
| Audit.AuditWriter.DrainOne | core/tstd/audit_writer.py:403-443 | one operation written insert by insert, or failed part way, told once per streak |
| Audit.AuditWriter.Close | core/tstd/audit_writer.py:139-153 | closing is a run of flushes and drains that leaves no buffer and, if the drain was started, no queue |
| AuditQueries.GroupsTotal | core/tstd/audit_queries.py:41-61 | whatever the groups' keys select sums to the same before and after grouping |
| AuditQueries.AggregateTotal | core/tstd/audit_queries.py:41-91 | each scope's rows, apart by key, sum to the calls the scope takes in |
| AuditQueries.TurnsCarryNoClassifier | core/tstd/audit_queries.py:64-72 | in any store a writer filled, each line of the turn query is the only one of its turn, sums that turn's own calls and carries no classifier spend |
| AuditQueries.QueriedTotal | core/tstd/audit_queries.py:142-147 | grouping the view sums the very calls the view sums |
| AuditQueries.LimitKeepsNewest | core/tstd/audit_queries.py:149-159 | a limit keeps as many distinct buckets as it may, most recent first, none left out newer than one kept |
| AuditQueries.UsageTotal | core/tstd/audit_queries.py:161-176 | the rows of kept buckets sum to all calls of those buckets, so no bucket is cut |
| AuditQueries.UnlimitedTotal | core/tstd/audit_queries.py:133-176 | without a limit the totals are the sums over every call |
| AuditQueries.UsageRows | core/tstd/audit_queries.py:161-176 | each row is exact for its bucket and tier, buckets in rank order and tiers in order |
| AuditQueries.UsageRollup | core/tstd/audit_queries.py:133-176 | the loops over latest days, ranks and rows yield the specified rollup |
| AuditQueries.BillIsRecord | core/tstd/audit_writer.py:453-479 | over a new store, a closed writer's session costs exactly what was recorded for it, classifier spend apart |
| WebSocketFrames.Client.SendText | core/scripts/smoke_linux_e2e.py:182-197 | the bytes sent are one masked text frame, or none when the length does not fit |
| WebSocketFrames.Client.ReadExact | core/scripts/smoke_linux_e2e.py:234-241 | exactly n bytes however the stream is cut, or none when it ends first |
| WebSocketFrames.Client.NextFrame | core/scripts/smoke_linux_e2e.py:219-232 | reads the frame the coming bytes hold and no byte more |
| WebSocketFrames.FrameRoundTrip | core/scripts/smoke_linux_e2e.py:182-232 | reading what was sent gives opcode and payload back in all three length forms, for every mask |
| WebSocketFrames.FramesOneByOne | core/scripts/smoke_linux_e2e.py:182-232 | frames sent one after another are read one by one |

## Left out

- PyYAML's scanner and composer: a composer is any that reports the marks `YamlMarks.Composed` allows, and a reading
  of a text is a well-formed tree that prints it.
- YAML the tree does not hold: folded scalars, literal blocks with an indentation indicator or `+`, anchors, aliases
  and merges, keys that are no strings, plain scalars over several lines, single quotes, document markers, lone
  surrogates. The code refuses shared nodes and merges before it edits.
- `_resolve`, `_filled`, `_materialized`, masking and locking of the config editor: they choose the edit, and the
  schema they consult is not part of this model.
- Token counting: the budget and the meter are parameters; the budget's float fraction is not modelled.
- The words of a worker's summary, guidance words as a pattern, files read again: arbitrary strings or functions.
- Summary counts written in digits other than 0 to 9.
- Redaction, a person's own words in a user message, a call's arguments as shown and a row's size in JSON are
  parameters of the history model; so is the protocol schema in `BridgeWire`.
- The link's dialing, back-off, status and parking timers, the hub's pairing, linger and tick, and merging of rows. A
  lane's link is open or closed and running or not.
- YamlReadBack.SetReadsAs: says nothing of an edit that does not fit; that its text reads as another value is shown
  for three families of such edits (`YamlMisfits`, `YamlSwallow`), not for all.
- YamlReadBack.RemoveReadsAs: likewise.
- Scheduling inside a step: what has no await is one step, and recording a seq and delivering it is one.
- Notices, questions and printed lines of a headless run, and its exit codes.
- Zip, XML parsing, the byte budgets and spreadsheets: `Docx` starts from well-nested events.
- JSON quoting of configuration values is a parameter of `ConfigWrite`; so is the text of a number in `CardWrite`.
- The other configuration writers (presets, judgments, connections, servers): the same line edits again.
- `_cap_strings` and `merge_rows`: they would only add easy members.
- SQLite: a table is an append-only list, an insert is stored or raises. Tool calls, decisions, questions, judgments
  and hook runs are one kind of note; the start row of a session that attaches again, which the store passes over,
  still shows in the log.
- Calls recorded while `close` waits for the queue: they are further events of a run, and stay buffered.
- Turn indexes start again at 1 in a new writer over the same store; the timeline is one writer's.
- Costs are reals, without rounding; the day of a call and the Monday of a day are given.
- The WebSocket handshake, pings and closing.
