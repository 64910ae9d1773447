/** How a message log may evolve: messages are only appended, and only their revocation may change. */
module Logs {
  import opened Domain
  import opened Text

  /** later is the stored message earlier, possibly revoked since. */
  ghost predicate SameMessage(earlier: Message, later: Message) {
    && later == earlier.(revoked := later.revoked)
    && (later != earlier ==> earlier.revoked.None? && earlier.sender.FromAgent?)
  }

  ghost predicate Grows(older: seq<Message>, newer: seq<Message>) {
    |older| <= |newer| && forall i :: 0 <= i < |older| ==> SameMessage(older[i], newer[i])
  }

  /** Server ids are distinct, and none is blank or padded. */
  ghost predicate Addressable(log: seq<Message>) {
    && (forall i, j :: 0 <= i < j < |log| ==> log[i].id != log[j].id)
    && (forall i :: 0 <= i < |log| ==> log[i].id != "" && Trim(log[i].id) == log[i].id)
  }

  /** The position of the first message with this id, or the length of the log. */
  function Position(log: seq<Message>, id: string): (p: nat)
    ensures p <= |log| && (forall i :: 0 <= i < p ==> log[i].id != id) && (p < |log| ==> log[p].id == id)
  {
    if log == [] || log[0].id == id then 0 else 1 + Position(log[1..], id)
  }
}
