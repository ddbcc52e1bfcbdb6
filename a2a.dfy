/**
 * The A2A protocol records the agents exchange: task states, message parts,
 * messages, artifacts and tasks (the `common.types` models the source imports).
 */
module A2A {
  import opened Wrappers

  datatype TaskState = Submitted | Working | InputRequired | Completed | Canceled | Failed | Unknown

  /** A message part; `Other` stands for a part whose `type` is none of the three known ones. */
  datatype Part =
    | TextPart(text: string)
    | DataPart(data: map<string, string>)
    | FilePart(name: string, mimeType: string, bytes: string)
    | OtherPart(kind: string)

  datatype Message = Message(role: string, parts: seq<Part>)

  datatype TaskStatus = TaskStatus(state: TaskState, message: Option<Message>)

  datatype Artifact = Artifact(parts: seq<Part>, index: nat, append: bool)

  /** A task as the server answers it: its session and the messages of its history travel with it. */
  datatype Task = Task(id: string, sessionId: string, status: TaskStatus, artifacts: seq<Artifact>, history: seq<Message>)

  /** `hasattr(part, 'text') and part.text`: only text parts have text, and it must be non-empty. */
  predicate HasText(p: Part) {
    p.TextPart? && p.text != ""
  }

  /**
   * The loop `for part in parts: if hasattr(part, 'text') and part.text: return part.text`:
   * the text of the first part that has non-empty text, or None.
   */
  function FirstText(parts: seq<Part>): (r: Option<string>)
    ensures r.None? <==> forall i :: 0 <= i < |parts| ==> !HasText(parts[i])
    ensures r.Some? ==> r.value != ""
    ensures r.Some? ==> exists i :: 0 <= i < |parts| && parts[i] == TextPart(r.value) &&
                          forall j :: 0 <= j < i ==> !HasText(parts[j])
  {
    if parts == [] then None
    else if HasText(parts[0]) then Some(parts[0].text)
    else
      var r := FirstText(parts[1..]);
      assert forall i :: 1 <= i < |parts| ==> parts[i] == parts[1..][i - 1];
      if r.Some? then
        ghost var k :| 0 <= k < |parts[1..]| && parts[1..][k] == TextPart(r.value) &&
          forall j :: 0 <= j < k ==> !HasText(parts[1..][j]);
        assert parts[k + 1] == TextPart(r.value);
        r
      else r
  }
}
