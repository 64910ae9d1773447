/** Cursor paging over a message log: the in-memory form and the protocol that follows its cursors. */
module Paging {
  import opened Domain
  import opened Text
  import opened Logs

  datatype Page = Page(messages: seq<Message>, hasMore: bool, nextBefore: string)

  function PageSize(limit: int): nat { if limit <= 0 || limit > 100 then 50 else limit }

  /** Where a page ends: before the cursor message, or at the end when the cursor is blank or unknown. */
  function End(log: seq<Message>, before: string): (end: nat)
    ensures end <= |log|
  {
    if Trim(before) == "" then |log| else Position(log, Trim(before))
  }

  function Start(log: seq<Message>, limit: int, before: string): nat {
    var end := End(log, before);
    if end <= PageSize(limit) then 0 else end - PageSize(limit)
  }

  function PageOf(log: seq<Message>, limit: int, before: string): Page {
    var start := Start(log, limit, before);
    var messages := log[start..End(log, before)];
    Page(messages, start > 0, if start > 0 && messages != [] then messages[0].id else "")
  }

  method PageMessages(messages: seq<Message>, limit: int, beforeServerMsgId: string) returns (page: Page)
    ensures page == PageOf(messages, limit, beforeServerMsgId)
  {
    var size := limit;
    if size <= 0 || size > 100 {
      size := 50;
    }
    var end := |messages|;
    var before := Trim(beforeServerMsgId);
    if before != "" {
      var idx := 0;
      while idx < |messages|
        invariant 0 <= idx <= |messages| && end == |messages|
        invariant forall i :: 0 <= i < idx ==> messages[i].id != before
      {
        if messages[idx].id == before {
          end := idx;
          break;
        }
        idx := idx + 1;
      }
    }
    var start := end - size;
    if start < 0 {
      start := 0;
    }
    var result := messages[start..end];
    page := Page(result, start > 0, "");
    if page.hasMore && |result| > 0 {
      page := page.(nextBefore := result[0].id);
    }
  }

  /** n messages lie before the cursor: all of them when it is blank or unknown. */
  ghost predicate LieBefore(log: seq<Message>, before: string, n: nat) {
    if Trim(before) != "" && exists m :: m in log && m.id == Trim(before)
    then n < |log| && log[n].id == Trim(before) && forall i :: 0 <= i < n ==> log[i].id != Trim(before)
    else n == |log|
  }

  /** A page holds the last messages before the cursor, as many as asked for (fifty when the request is out of
      range), and announces more exactly when there are more, under the id of its oldest message. */
  lemma PageHoldsTheLast(log: seq<Message>, limit: int, before: string, n: nat)
    requires LieBefore(log, before, n)
    ensures var page, k := PageOf(log, limit, before), if 1 <= limit <= 100 then limit else 50;
            && page.messages == (if n <= k then log[..n] else log[n - k..n])
            && |page.messages| == (if n <= k then n else k)
            && (page.hasMore <==> n > k)
            && page.nextBefore == if n > k then log[n - k].id else ""
  {
    hide Trim;
    assert End(log, before) == n;
  }

  // ----- the protocol -----

  /** The logs that successive requests see: each extends the one before. */
  ghost predicate History(logs: nat -> seq<Message>) {
    && (forall n: nat :: Addressable(logs(n)))
    && (forall m: nat, n: nat :: m <= n ==> Grows(logs(m), logs(n)))
  }

  /** A cursor handed out by one request means the same position in every later log. */
  lemma CursorKeepsItsPlace(logs: nat -> seq<Message>, m: nat, n: nat, k: nat)
    requires History(logs) && m <= n && k < |logs(m)|
    ensures End(logs(n), logs(m)[k].id) == k
  {
    assert Grows(logs(m), logs(n)) && Addressable(logs(m)) && Addressable(logs(n));
    assert SameMessage(logs(m)[k], logs(n)[k]);
    var id := logs(m)[k].id;
    assert Trim(id) == id != "";
    hide Trim;
  }

  /** Request n and all that follow it while more is announced, with the pages joined oldest first. */
  ghost function Follow(logs: nat -> seq<Message>, limits: nat -> int, n: nat, before: string): seq<Message>
    requires History(logs)
    decreases End(logs(n), before)
  {
    var page := PageOf(logs(n), limits(n), before);
    if page.hasMore then
      CursorKeepsItsPlace(logs, n, n + 1, Start(logs(n), limits(n), before));
      Follow(logs, limits, n + 1, page.nextBefore) + page.messages
    else page.messages
  }

  /** One request: the stretch of the log it returns, and where its cursor points when the next one comes. */
  lemma OneRequest(logs: nat -> seq<Message>, limits: nat -> int, n: nat, before: string)
    requires History(logs)
    ensures var page, log := PageOf(logs(n), limits(n), before), logs(n);
            var start, end := Start(log, limits(n), before), End(log, before);
            && start <= end <= |logs(n)| && page.messages == log[start..end] && (page.hasMore <==> start > 0)
            && (page.hasMore ==> start < end && End(logs(n + 1), page.nextBefore) == start)
  {
    hide End;
    var start := Start(logs(n), limits(n), before);
    if start > 0 { CursorKeepsItsPlace(logs, n, n + 1, start); }
    hide History;
  }

  /** A page joined to what was fetched of a later, longer log. */
  lemma JoinedToOlder(log: seq<Message>, later: seq<Message>, older: seq<Message>, start: nat, end: nat)
    requires start <= end <= |log| && Grows(log, later) && |older| == start
    requires forall k :: 0 <= k < start ==> SameMessage(later[k], older[k])
    ensures |older + log[start..end]| == end
    ensures forall k :: 0 <= k < end ==> SameMessage(log[k], (older + log[start..end])[k])
  {
    forall k | 0 <= k < end ensures SameMessage(log[k], (older + log[start..end])[k]) {
      if k < start { assert SameMessage(log[k], later[k]) && SameMessage(later[k], older[k]); }
    }
  }

  /** Following the cursors from request n yields, once each and in order, what lies before its cursor. */
  lemma {:induction false} FollowYieldsPrefix(logs: nat -> seq<Message>, limits: nat -> int, n: nat, before: string)
    requires History(logs)
    ensures var all := Follow(logs, limits, n, before);
            && |all| == End(logs(n), before) <= |logs(n)|
            && forall k :: 0 <= k < |all| ==> SameMessage(logs(n)[k], all[k])
    decreases End(logs(n), before)
  {
    hide PageOf, Start, End, SameMessage, Grows, Addressable;
    OneRequest(logs, limits, n, before);
    var start, end := Start(logs(n), limits(n), before), End(logs(n), before);
    var page := PageOf(logs(n), limits(n), before);
    var older := [];
    if page.hasMore {
      FollowYieldsPrefix(logs, limits, n + 1, page.nextBefore);
      older := Follow(logs, limits, n + 1, page.nextBefore);
    }
    assert Grows(logs(n), logs(n + 1));
    JoinedToOlder(logs(n), logs(n + 1), older, start, end);
    assert Follow(logs, limits, n, before) == older + page.messages;
  }

  /** The whole protocol: from the empty cursor, every message present at the first request is delivered
      exactly once and in order, whatever is appended or revoked between the requests. */
  lemma PagesRebuildTheLog(logs: nat -> seq<Message>, limits: nat -> int)
    requires History(logs)
    ensures var all := Follow(logs, limits, 0, "");
            && |all| == |logs(0)|
            && forall k :: 0 <= k < |all| ==> SameMessage(logs(0)[k], all[k])
  {
    FollowYieldsPrefix(logs, limits, 0, "");
  }
}
