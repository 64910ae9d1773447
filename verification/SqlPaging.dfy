/** The keyset form of paging over the messages table, and when it returns the in-memory page. */
module SqlPaging {
  import opened Domain
  import opened Text
  import opened Logs
  import opened Paging

  /** The row order (created_at, server_msg_id). */
  predicate KeyLess(m: Message, n: Message) { m.at < n.at || (m.at == n.at && Less(m.id, n.id)) }

  ghost predicate Ascending(rows: seq<Message>) {
    forall i, j :: 0 <= i < j < |rows| ==> KeyLess(rows[i], rows[j])
  }

  function Rows(log: seq<Message>): set<Message> { set m | m in log }

  /** The WHERE clause: every row for the empty cursor, else the rows below the cursor's row; an unknown
      cursor compares against NULL and selects nothing. */
  ghost function Candidates(table: set<Message>, cursor: string): set<Message> {
    set m | m in table && (cursor == "" || exists c :: c in table && c.id == cursor && KeyLess(m, c))
  }

  /** ORDER BY created_at DESC, server_msg_id DESC LIMIT k: newest holds the k greatest candidates. */
  ghost predicate Newest(newest: set<Message>, candidates: set<Message>, k: nat) {
    && newest <= candidates
    && |newest| == (if |candidates| <= k then |candidates| else k)
    && forall m, n :: m in newest && n in candidates - newest ==> KeyLess(n, m)
  }

  /** What the query may return: the limit+1 newest candidates, in ascending order. */
  ghost predicate QueryResult(rows: seq<Message>, table: set<Message>, limit: int, before: string) {
    Ascending(rows) && Newest(Rows(rows), Candidates(table, Trim(before)), PageSize(limit) + 1)
  }

  /** How the page is made from the rows: the extra oldest row only announces that there is more. */
  method PageFromRows(rows: seq<Message>, limit: int) returns (page: Page)
    ensures page == PageMadeFrom(rows, PageSize(limit))
  {
    var size := limit;
    if size <= 0 || size > 100 {
      size := 50;
    }
    page := Page(rows, false, "");
    if |rows| > size {
      page := page.(hasMore := true, messages := rows[1..]);
    }
    if page.hasMore && |page.messages| > 0 {
      page := page.(nextBefore := page.messages[0].id);
    }
  }

  function PageMadeFrom(rows: seq<Message>, size: nat): Page {
    if |rows| <= size then Page(rows, false, "")
    else Page(rows[1..], true, if |rows| > 1 then rows[1].id else "")
  }

  /** The query fetches the rows of a page and one more, if there are that many. */
  lemma QueryFetchesOneMore(rows: seq<Message>, table: set<Message>, limit: int, before: string)
    requires QueryResult(rows, table, limit, before)
    ensures var k, n := if 1 <= limit <= 100 then limit else 50, |Candidates(table, Trim(before))|;
            |rows| == if n <= k then n else k + 1
  {
    hide Candidates, Trim;
    AscendingHasNoRepeats(rows);
    RowCount(rows);
  }

  /** The page made of them: the newest rows, as many as asked for. */
  lemma PageDropsTheExtraRow(rows: seq<Message>, limit: int)
    ensures var page, k := PageMadeFrom(rows, PageSize(limit)), if 1 <= limit <= 100 then limit else 50;
            && (|rows| <= k ==> page == Page(rows, false, ""))
            && (|rows| == k + 1 ==> page == Page(rows[1..], true, rows[1].id) && |page.messages| == k)
  {
  }

  lemma KeyLessAsymmetric(m: Message, n: Message)
    requires KeyLess(m, n)
    ensures !KeyLess(n, m)
  {
    if m.at == n.at { LessAsymmetric(m.id, n.id); }
  }

  lemma AscendingHasNoRepeats(rows: seq<Message>)
    requires Ascending(rows)
    ensures forall i, j :: 0 <= i < j < |rows| ==> rows[i] != rows[j]
  {
    forall i, j | 0 <= i < j < |rows| ensures rows[i] != rows[j] {
      KeyLessAsymmetric(rows[i], rows[j]);
    }
  }

  lemma {:induction false} RowCount(rows: seq<Message>)
    requires forall i, j :: 0 <= i < j < |rows| ==> rows[i] != rows[j]
    ensures |Rows(rows)| == |rows|
  {
    if rows != [] {
      var init, last := rows[..|rows| - 1], rows[|rows| - 1];
      RowCount(init);
      assert Rows(rows) == Rows(init) + {last};
      assert last !in init;
    }
  }

  /** An ascending sequence is determined by its elements. */
  lemma {:induction false} AscendingUnique(a: seq<Message>, b: seq<Message>)
    requires Ascending(a) && Ascending(b) && Rows(a) == Rows(b)
    ensures a == b
  {
    AscendingHasNoRepeats(a);
    AscendingHasNoRepeats(b);
    RowCount(a);
    RowCount(b);
    if a != [] {
      var n := |a| - 1;
      assert a[n] in Rows(a) && b[n] in Rows(b);
      var i :| 0 <= i < |b| && b[i] == a[n];
      var j :| 0 <= j < |a| && a[j] == b[n];
      if i < n { KeyLessAsymmetric(b[i], b[n]); }
      assert a[n] == b[n];
      var x, y := a[..n], b[..n];
      forall m ensures m in Rows(x) <==> m in Rows(y) {
        assert m in Rows(x) <==> m in Rows(a) && m != a[n];
        assert m in Rows(y) <==> m in Rows(b) && m != b[n];
      }
      AscendingUnique(x, y);
    }
  }

  lemma SameSizeSubset<T>(s: set<T>, t: set<T>)
    requires s <= t && |s| == |t|
    ensures s == t
  {
    assert |t - s| == |t| - |s|;
  }

  /** Only one set of rows can be the k newest. */
  lemma NewestUnique(s: set<Message>, t: set<Message>, candidates: set<Message>, k: nat)
    requires Newest(s, candidates, k) && Newest(t, candidates, k)
    ensures s == t
  {
    if m :| m in s - t {
      forall n | n in t ensures n in s { if n !in s { KeyLessAsymmetric(m, n); } }
      SameSizeSubset(t, s);
    } else {
      forall n | n in s ensures n in t { assert n !in s - t; }
      SameSizeSubset(s, t);
    }
  }

  lemma CandidatesArePrefix(log: seq<Message>, before: string)
    requires Ascending(log) && Addressable(log) && (Trim(before) == "" || End(log, before) < |log|)
    ensures Candidates(Rows(log), Trim(before)) == Rows(log[..End(log, before)])
  {
    var end, cursor := End(log, before), Trim(before);
    forall m ensures m in Candidates(Rows(log), cursor) <==> m in Rows(log[..end]) {
      if cursor != "" {
        if m in Candidates(Rows(log), cursor) {
          CursorRowIsBelow(log, before, m);
        }
        if m in log[..end] {
          assert log[end] in Rows(log) && KeyLess(m, log[end]);
        }
      }
    }
  }

  /** A row below some row with the cursor's id lies before the cursor's position. */
  lemma CursorRowIsBelow(log: seq<Message>, before: string, m: Message)
    requires Ascending(log) && Trim(before) != "" && End(log, before) < |log|
    requires Addressable(log) && m in Candidates(Rows(log), Trim(before))
    ensures m in log[..End(log, before)]
  {
    var end := End(log, before);
    var c :| c in Rows(log) && c.id == Trim(before) && KeyLess(m, c);
    var i :| 0 <= i < |log| && log[i] == c;
    var j :| 0 <= j < |log| && log[j] == m;
    assert i == end;
    if j >= end {
      if j > end { KeyLessAsymmetric(log[end], m); } else { KeyLessAsymmetric(m, c); }
    }
  }

  lemma SuffixIsNewest(log: seq<Message>, first: nat, k: nat)
    requires Ascending(log) && first <= |log| && |log| - first == if |log| <= k then |log| else k
    ensures Newest(Rows(log[first..]), Rows(log), k)
  {
    var suffix := log[first..];
    AscendingHasNoRepeats(log);
    RowCount(log);
    RowCount(suffix);
    forall p | first <= p < |log| ensures log[p] in suffix { assert suffix[p - first] == log[p]; }
    forall m, n | m in Rows(suffix) && n in Rows(log) - Rows(suffix) ensures KeyLess(n, m) {
      var i :| 0 <= i < |log| && log[i] == n;
      var j :| 0 <= j < |suffix| && suffix[j] == m;
      assert log[first + j] == m;
    }
  }

  /** The query always has a result: the last limit+1 messages before the cursor. */
  lemma SuffixIsQueryResult(log: seq<Message>, limit: int, before: string)
    requires Ascending(log) && Addressable(log) && (Trim(before) == "" || End(log, before) < |log|)
    ensures var end, k := End(log, before), PageSize(limit) + 1;
            QueryResult(log[if end <= k then 0 else end - k..end], Rows(log), limit, before)
  {
    var end, k := End(log, before), PageSize(limit) + 1;
    var first := if end <= k then 0 else end - k;
    CandidatesArePrefix(log, before);
    SuffixIsNewest(log[..end], first, k);
    assert log[..end][first..] == log[first..end];
  }

  /** For an empty or existing cursor the query admits one result only, and it yields the in-memory page. */
  lemma KeysetPageMatches(log: seq<Message>, rows: seq<Message>, limit: int, before: string)
    requires Ascending(log) && Addressable(log) && QueryResult(rows, Rows(log), limit, before)
    requires Trim(before) == "" || End(log, before) < |log|
    ensures PageMadeFrom(rows, PageSize(limit)) == PageOf(log, limit, before)
  {
    var end, k := End(log, before), PageSize(limit) + 1;
    var suffix := log[if end <= k then 0 else end - k..end];
    SuffixIsQueryResult(log, limit, before);
    NewestUnique(Rows(rows), Rows(suffix), Candidates(Rows(log), Trim(before)), k);
    AscendingUnique(rows, suffix);
  }

  lemma NoRows(rows: seq<Message>)
    ensures Rows(rows) == {} ==> rows == []
  {
    if rows != [] { assert rows[0] in Rows(rows); }
  }

  /** The two stores return the same page exactly when the cursor is empty or known, or nothing is stored:
      an unknown cursor selects no row here and the newest page there. */
  lemma KeysetPageMatchesIff(log: seq<Message>, rows: seq<Message>, limit: int, before: string)
    requires Ascending(log) && Addressable(log) && QueryResult(rows, Rows(log), limit, before)
    ensures PageMadeFrom(rows, PageSize(limit)) == PageOf(log, limit, before)
            <==> Trim(before) == "" || (exists i :: 0 <= i < |log| && log[i].id == Trim(before)) || log == []
  {
    if Trim(before) == "" || End(log, before) < |log| {
      KeysetPageMatches(log, rows, limit, before);
    } else {
      assert Candidates(Rows(log), Trim(before)) == {};
      NoRows(rows);
    }
  }
}
