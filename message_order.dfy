/** Timestamp order of a conversation: the ascending order the message query asks the store
    for, and the descending `sortedByDescending { it.timestamp }` of the legacy repository. */
module MessageOrder {
  import opened Models

  datatype Direction = Ascending | Descending

  /** The sort key: the timestamp, negated for descending order. */
  function Key(m: Message, dir: Direction): int {
    if dir == Ascending then m.timestamp else -m.timestamp
  }

  predicate SortedBy(s: seq<Message>, dir: Direction) {
    forall i, j :: 0 <= i < j < |s| ==> Key(s[i], dir) <= Key(s[j], dir)
  }

  /** Puts `m` in front of the first element whose key is not smaller, so that `m` stays
      ahead of the messages with the same timestamp. */
  function Insert(m: Message, s: seq<Message>, dir: Direction): (r: seq<Message>)
    requires SortedBy(s, dir)
    ensures SortedBy(r, dir)
    ensures multiset(r) == multiset(s) + multiset{m}
    ensures forall i :: 0 <= i < |r| ==> r[i] == m || r[i] in s
  {
    if s == [] then [m]
    else if Key(s[0], dir) < Key(m, dir) then
      var rest := Insert(m, s[1..], dir);
      FirstBelowInserted(m, s, rest, dir);
      assert s == [s[0]] + s[1..];
      [s[0]] + rest
    else
      [m] + s
  }

  lemma FirstBelowInserted(m: Message, s: seq<Message>, rest: seq<Message>, dir: Direction)
    requires |s| > 0 && SortedBy(s, dir) && Key(s[0], dir) < Key(m, dir)
    requires SortedBy(rest, dir)
    requires forall i :: 0 <= i < |rest| ==> rest[i] == m || rest[i] in s[1..]
    ensures SortedBy([s[0]] + rest, dir)
  {
    forall j | 0 <= j < |rest| ensures Key(s[0], dir) <= Key(rest[j], dir) {
      if rest[j] != m {
        var k :| 0 <= k < |s[1..]| && s[1..][k] == rest[j];
        assert s[k + 1] == rest[j];
      }
    }
  }

  /** A stable sort of a conversation by timestamp. */
  function SortByTimestamp(s: seq<Message>, dir: Direction): (r: seq<Message>)
    ensures SortedBy(r, dir)
    ensures multiset(r) == multiset(s)
    ensures |r| == |s|
  {
    if s == [] then []
    else
      assert s == [s[0]] + s[1..];
      Insert(s[0], SortByTimestamp(s[1..], dir), dir)
  }

  /** A message stored in a conversation is in every ordered snapshot of it. */
  lemma SortedSnapshotHasEveryMessage(s: seq<Message>, m: Message, dir: Direction)
    requires m in s
    ensures m in SortByTimestamp(s, dir)
  {
    assert m in multiset(s);
  }

  /** Timestamps [5, 1, 3] come back as [1, 3, 5]. */
  lemma AscendingExample(a: Message, b: Message, c: Message)
    requires a.timestamp == 5 && b.timestamp == 1 && c.timestamp == 3
    ensures SortByTimestamp([a, b, c], Ascending) == [b, c, a]
  {
    assert [a, b, c][1..] == [b, c] && [b, c][1..] == [c];
    assert SortByTimestamp([c], Ascending) == [c];
    assert SortByTimestamp([b, c], Ascending) == [b, c];
    assert Insert(a, [c], Ascending) == [c] + Insert(a, [], Ascending) == [c, a];
    assert [b, c][1..] == [c];
    assert Insert(a, [b, c], Ascending) == [b] + Insert(a, [c], Ascending);
  }

  lemma DescendingExample(a: Message, b: Message, c: Message)
    requires a.timestamp == 5 && b.timestamp == 1 && c.timestamp == 3
    ensures SortByTimestamp([a, b, c], Descending) == [a, c, b]
  {
    assert [a, b, c][1..] == [b, c] && [b, c][1..] == [c];
    assert SortByTimestamp([c], Descending) == [c];
    assert SortByTimestamp([b, c], Descending) == [c, b];
  }
}
