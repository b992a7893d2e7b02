// The mobile history screen: sessions grouped by calendar day, newest day first, and the two
// toggles that expand a day or a session.

module HistoryScreen {
  import opened Common

  datatype MobileLog = MobileLog(timestampSec: int, text: string)

  datatype MobileSession = MobileSession(
    id: string, startedAt: string, durationSec: int, logs: Option<seq<MobileLog>>, isExpanded: bool, isLoadingLogs: bool)

  datatype DateGroup = DateGroup(
    date: string, sessions: seq<MobileSession>, isExpanded: bool, totalDuration: int, sessionCount: nat)

  // ----- ordering of the day keys -----

  /** Character-by-character order of two keys, a prefix first. */
  predicate LexLeq(a: string, b: string)
  {
    a == [] || (b != [] && (a[0] < b[0] || (a[0] == b[0] && LexLeq(a[1..], b[1..]))))
  }

  lemma {:induction false} LexLeqTotal(a: string, b: string)
    ensures LexLeq(a, b) || LexLeq(b, a)
  {
    if a != [] && b != [] && a[0] == b[0] {
      LexLeqTotal(a[1..], b[1..]);
    }
  }

  /** Every key is at least the one after it. */
  predicate SortedDesc(keys: seq<string>)
  {
    forall i :: 0 <= i < |keys| - 1 ==> LexLeq(keys[i + 1], keys[i])
  }

  function InsertDesc(keys: seq<string>, x: string): (r: seq<string>)
    ensures |r| == |keys| + 1
    ensures multiset(r) == multiset(keys) + multiset{x}
  {
    if keys == [] then [x]
    else if LexLeq(x, keys[|keys| - 1]) then keys + [x]
    else
      var init := keys[..|keys| - 1];
      assert keys == init + [keys[|keys| - 1]];
      InsertDesc(init, x) + [keys[|keys| - 1]]
  }

  lemma {:induction false} InsertDescSorted(keys: seq<string>, x: string)
    requires SortedDesc(keys)
    ensures SortedDesc(InsertDesc(keys, x))
    ensures keys != [] ==> InsertDesc(keys, x)[|keys|] in {keys[|keys| - 1], x}
  {
    if keys != [] {
      var init, last := keys[..|keys| - 1], keys[|keys| - 1];
      if LexLeq(x, last) {
        SnocDesc(keys, x);
      } else {
        assert SortedDesc(init);
        InsertDescSorted(init, x);
        var ins := InsertDesc(init, x);
        assert InsertDesc(keys, x) == ins + [last];
        LexLeqTotal(x, last);
        if init != [] {
          assert LexLeq(last, init[|init| - 1]);
          assert LexLeq(last, ins[|init|]);
        } else {
          assert ins == [x];
        }
        SnocDesc(ins, last);
      }
    }
  }

  /** Adding a key no larger than the last keeps a sequence in descending order. */
  lemma SnocDesc(keys: seq<string>, x: string)
    requires SortedDesc(keys) && keys != [] && LexLeq(x, keys[|keys| - 1])
    ensures SortedDesc(keys + [x])
  {
    var r := keys + [x];
    forall i | 0 <= i < |r| - 1
      ensures LexLeq(r[i + 1], r[i])
    {
      if i < |keys| - 1 {
        assert r[i] == keys[i] && r[i + 1] == keys[i + 1];
      }
    }
  }

  /** `sort((a, b) => b.localeCompare(a))`: the keys, largest first. */
  function SortDesc(keys: seq<string>): (r: seq<string>)
    ensures |r| == |keys|
    ensures multiset(r) == multiset(keys)
  {
    if keys == [] then []
    else
      var init := keys[..|keys| - 1];
      assert keys == init + [keys[|keys| - 1]];
      InsertDesc(SortDesc(init), keys[|keys| - 1])
  }

  lemma {:induction false} SortDescSorted(keys: seq<string>)
    ensures SortedDesc(SortDesc(keys))
  {
    if keys != [] {
      SortDescSorted(keys[..|keys| - 1]);
      InsertDescSorted(SortDesc(keys[..|keys| - 1]), keys[|keys| - 1]);
    }
  }

  /** A duplicate-free sequence holds each value at most once. */
  lemma {:induction false} DistinctCount(a: seq<string>, x: string)
    requires NoDuplicates(a)
    ensures multiset(a)[x] <= 1
  {
    if a != [] {
      var init := a[..|a| - 1];
      NoDuplicatesInit(a);
      DistinctCount(init, x);
      assert a == init + [a[|a| - 1]];
      if x == a[|a| - 1] {
        assert multiset(init)[x] == 0;
      }
    }
  }

  /** A value at two positions is counted at least twice. */
  lemma RepeatCount(b: seq<string>, i: nat, j: nat)
    requires i < j < |b| && b[i] == b[j]
    ensures multiset(b)[b[i]] >= 2
  {
    var x := b[i];
    assert b[..j + 1] == b[..j] + [x];
    assert x in b[..j];
    assert multiset(b[..j + 1])[x] >= 2;
    assert b == b[..j + 1] + b[j + 1..];
  }

  /** A rearrangement of a duplicate-free sequence is duplicate-free. */
  lemma NoDuplicatesPermutation(a: seq<string>, b: seq<string>)
    requires multiset(a) == multiset(b) && NoDuplicates(a)
    ensures NoDuplicates(b)
  {
    forall i, j | 0 <= i < j < |b|
      ensures b[i] != b[j]
    {
      DistinctCount(a, b[i]);
      if b[i] == b[j] {
        RepeatCount(b, i, j);
        assert false;
      }
    }
  }

  // ----- grouping -----

  /** The day key of a session (`getDateKey(started_at)`). */
  function Key(s: MobileSession, keyOf: string -> string): string
  {
    keyOf(s.startedAt)
  }

  /** The sessions with a given key, in input order. */
  function Members(sessions: seq<MobileSession>, key: string, keyOf: string -> string): (r: seq<MobileSession>)
    ensures forall x :: x in r <==> x in sessions && Key(x, keyOf) == key
  {
    if sessions == [] then []
    else
      var last := sessions[|sessions| - 1];
      Members(sessions[..|sessions| - 1], key, keyOf) + (if Key(last, keyOf) == key then [last] else [])
  }

  /**
   * A day's sessions keep their input order: the members of a concatenation are the members of
   * the first part followed by those of the second.
   */
  lemma {:induction false} MembersAppend(a: seq<MobileSession>, b: seq<MobileSession>, key: string, keyOf: string -> string)
    ensures Members(a + b, key, keyOf) == Members(a, key, keyOf) + Members(b, key, keyOf)
  {
    if b != [] {
      var init := b[..|b| - 1];
      assert (a + b)[..|a + b| - 1] == a + init;
      MembersAppend(a, init, key, keyOf);
    } else {
      assert a + b == a;
    }
  }

  /** The keys in order of first appearance, as a `Map`'s keys come out. */
  function KeyOrder(sessions: seq<MobileSession>, keyOf: string -> string): (r: seq<string>)
    ensures NoDuplicates(r)
  {
    if sessions == [] then []
    else
      var prev := KeyOrder(sessions[..|sessions| - 1], keyOf);
      var k := Key(sessions[|sessions| - 1], keyOf);
      if k in prev then prev else prev + [k]
  }

  /** A key is listed exactly when some session has it. */
  lemma {:induction false} KeyOrderMembers(sessions: seq<MobileSession>, keyOf: string -> string, k: string)
    ensures k in KeyOrder(sessions, keyOf) <==> Members(sessions, k, keyOf) != []
  {
    if sessions != [] {
      var init := sessions[..|sessions| - 1];
      KeyOrderMembers(init, keyOf, k);
    }
  }

  function Durations(sessions: seq<MobileSession>): int
  {
    if sessions == [] then 0 else Durations(sessions[..|sessions| - 1]) + sessions[|sessions| - 1].durationSec
  }

  function GroupOf(key: string, sessions: seq<MobileSession>, expanded: set<string>): (g: DateGroup)
    ensures g.date == key && g.sessions == sessions
    ensures g.isExpanded <==> key in expanded
    ensures g.sessionCount == |sessions| && g.totalDuration == Durations(sessions)
  {
    DateGroup(key, sessions, key in expanded, Durations(sessions), |sessions|)
  }

  /** The `forEach` that fills the map: each key's sessions in input order, keys in first-seen order. */
  method GroupByKey(sessions: seq<MobileSession>, keyOf: string -> string)
    returns (byKey: map<string, seq<MobileSession>>, order: seq<string>)
    ensures order == KeyOrder(sessions, keyOf)
    ensures forall k :: k in byKey <==> k in order
    ensures forall k :: k in byKey ==> byKey[k] == Members(sessions, k, keyOf)
  {
    byKey := map[];
    order := [];
    var n := 0;
    while n < |sessions|
      invariant 0 <= n <= |sessions|
      invariant order == KeyOrder(sessions[..n], keyOf)
      invariant forall k :: k in byKey <==> k in order
      invariant forall k :: k in byKey ==> byKey[k] == Members(sessions[..n], k, keyOf)
    {
      var s := sessions[n];
      var key := keyOf(s.startedAt);
      assert sessions[..n + 1][..n] == sessions[..n];
      if key !in byKey {
        KeyOrderMembers(sessions[..n], keyOf, key);
        byKey := byKey[key := []];
        order := order + [key];
      }
      byKey := byKey[key := byKey[key] + [s]];
      n := n + 1;
    }
    assert sessions[..n] == sessions;
  }

  /** The groups' keys, in order. */
  function Dates(groups: seq<DateGroup>): (r: seq<string>)
    ensures |r| == |groups| && forall i :: 0 <= i < |groups| ==> r[i] == groups[i].date
  {
    seq(|groups|, i requires 0 <= i < |groups| => groups[i].date)
  }

  /**
   * `dateGroups`: one group per day key, newest day first, each holding that day's sessions in
   * input order with their total duration, count and expanded flag.
   */
  method DateGroups(sessions: seq<MobileSession>, expanded: set<string>, keyOf: string -> string)
    returns (groups: seq<DateGroup>)
    ensures SortedDesc(Dates(groups)) && NoDuplicates(Dates(groups))
    ensures forall k :: k in Dates(groups) <==> Members(sessions, k, keyOf) != []
    ensures forall i :: 0 <= i < |groups| ==> groups[i] == GroupOf(groups[i].date, Members(sessions, groups[i].date, keyOf), expanded)
  {
    var byKey, order := GroupByKey(sessions, keyOf);
    var keys := SortDesc(order);
    forall i | 0 <= i < |keys|
      ensures keys[i] in byKey && byKey[keys[i]] == Members(sessions, keys[i], keyOf)
    {
      assert keys[i] in multiset(keys);
    }
    groups := seq(|keys|, i requires 0 <= i < |keys| => GroupOf(keys[i], byKey[keys[i]], expanded));
    GroupsMeaning(sessions, expanded, keyOf, keys, groups);
  }

  /** Groups built from the sorted day keys, one per key, have the properties `dateGroups` promises. */
  lemma GroupsMeaning(sessions: seq<MobileSession>, expanded: set<string>, keyOf: string -> string,
                      keys: seq<string>, groups: seq<DateGroup>)
    requires keys == SortDesc(KeyOrder(sessions, keyOf)) && |groups| == |keys|
    requires forall i :: 0 <= i < |keys| ==> groups[i] == GroupOf(keys[i], Members(sessions, keys[i], keyOf), expanded)
    ensures SortedDesc(Dates(groups)) && NoDuplicates(Dates(groups))
    ensures forall k :: k in Dates(groups) <==> Members(sessions, k, keyOf) != []
    ensures forall i :: 0 <= i < |groups| ==> groups[i] == GroupOf(groups[i].date, Members(sessions, groups[i].date, keyOf), expanded)
  {
    assert Dates(groups) == keys;
    DayKeys(sessions, keyOf);
  }

  /** The sorted day keys: newest first, each once, exactly the days some session falls on. */
  lemma DayKeys(sessions: seq<MobileSession>, keyOf: string -> string)
    ensures var keys := SortDesc(KeyOrder(sessions, keyOf));
      SortedDesc(keys) && NoDuplicates(keys)
      && forall k :: k in keys <==> Members(sessions, k, keyOf) != []
  {
    var order := KeyOrder(sessions, keyOf);
    var keys := SortDesc(order);
    SortDescSorted(order);
    NoDuplicatesPermutation(order, keys);
    forall k
      ensures k in keys <==> Members(sessions, k, keyOf) != []
    {
      assert k in keys <==> k in multiset(keys);
      KeyOrderMembers(sessions, keyOf, k);
    }
  }

  /** Every session is in the group of its day and in no other, and its day has a group. */
  lemma SessionInItsGroupOnly(sessions: seq<MobileSession>, expanded: set<string>, keyOf: string -> string,
                              groups: seq<DateGroup>, s: MobileSession)
    requires forall k :: k in Dates(groups) <==> Members(sessions, k, keyOf) != []
    requires forall i :: 0 <= i < |groups| ==> groups[i] == GroupOf(groups[i].date, Members(sessions, groups[i].date, keyOf), expanded)
    requires s in sessions
    ensures Key(s, keyOf) in Dates(groups)
    ensures forall i :: 0 <= i < |groups| ==> (s in groups[i].sessions <==> groups[i].date == Key(s, keyOf))
  {
    assert s in Members(sessions, Key(s, keyOf), keyOf);
  }

  // ----- the toggles -----

  /** `toggleDateGroup`: the day's key leaves the expanded set if it was there and joins it otherwise. */
  function ToggleDateGroup(expanded: set<string>, key: string): (r: set<string>)
    ensures key in r <==> key !in expanded
    ensures forall k :: k != key ==> (k in r <==> k in expanded)
  {
    if key in expanded then expanded - {key} else expanded + {key}
  }

  /** Toggling a day twice leaves the expanded set as it was. */
  lemma ToggleDateGroupTwice(expanded: set<string>, key: string)
    ensures ToggleDateGroup(ToggleDateGroup(expanded, key), key) == expanded
  {
  }

  /** The session after a toggle: only its expanded flag flips. */
  function Toggled(s: MobileSession, id: string): MobileSession
  {
    if s.id != id then s else s.(isExpanded := !s.isExpanded)
  }

  /**
   * `toggleSession`: the sessions with the id flip their expanded flag; `load` says whether a log
   * fetch starts, which happens when one of them is being expanded and has no logs yet.
   */
  function ToggleSession(sessions: seq<MobileSession>, id: string): (r: (seq<MobileSession>, bool))
    ensures |r.0| == |sessions|
    ensures forall i :: 0 <= i < |sessions| && sessions[i].id != id ==> r.0[i] == sessions[i]
    ensures forall i :: 0 <= i < |sessions| && sessions[i].id == id ==> r.0[i] == sessions[i].(isExpanded := !sessions[i].isExpanded)
    ensures r.1 <==> exists i :: 0 <= i < |sessions| && sessions[i].id == id && !sessions[i].isExpanded && sessions[i].logs.None?
  {
    (seq(|sessions|, i requires 0 <= i < |sessions| => Toggled(sessions[i], id)),
     exists i :: 0 <= i < |sessions| && sessions[i].id == id && !sessions[i].isExpanded && sessions[i].logs.None?)
  }

  /** Toggling a session twice restores the list. */
  lemma ToggleSessionTwice(sessions: seq<MobileSession>, id: string)
    ensures ToggleSession(ToggleSession(sessions, id).0, id).0 == sessions
  {
    var once := ToggleSession(sessions, id).0;
    var twice := ToggleSession(once, id).0;
    assert forall i :: 0 <= i < |sessions| ==> twice[i] == sessions[i];
  }
}
