/**
 * The sorted view of the campaign table: which column is active and in which
 * direction, the comparator the table hands to `Array.prototype.sort`, and the
 * stable sort of a copy of the stored list.
 */
module Sorting {
  import opened Campaigns

  /** The columns the table can be sorted by. */
  datatype SortField = Name | StartDate | Clicks | Cost | Earnings | Profit

  datatype Direction = Asc | Desc

  /** The sort selection: the active column and its direction. */
  datatype SortState = SortState(field: SortField, direction: Direction)

  const InitialSort := SortState(Name, Asc)

  function Flip(d: Direction): Direction {
    if d == Asc then Desc else Asc
  }

  /**
   * Choosing a column header: the active column flips its direction, any other
   * column becomes active in ascending order.
   */
  function Toggle(s: SortState, f: SortField): (r: SortState)
    ensures r.field == f
    ensures r.direction == Asc <==> s.field != f || s.direction == Desc
    ensures r != s
  {
    if s.field == f then SortState(f, Flip(s.direction)) else SortState(f, Asc)
  }

  /** Choosing the same column twice restores the selection when it was active, and otherwise leaves it descending. */
  lemma ToggleTwice(s: SortState, f: SortField)
    ensures Toggle(Toggle(s, f), f) == if s.field == f then s else SortState(f, Desc)
  {
  }

  /** The headers that call the toggle: every column but the name, which is only the initial selection. */
  predicate Clickable(f: SortField) {
    f != Name
  }

  /** Every selection of a clickable column is reached from the initial one by choosing that column once or twice. */
  lemma ToggleReaches(s: SortState)
    requires Clickable(s.field)
    ensures Toggle(InitialSort, s.field) == s || Toggle(Toggle(InitialSort, s.field), s.field) == s
  {
  }

  /** The selection after a sequence of header clicks. */
  function ApplyClicks(s: SortState, fs: seq<SortField>): SortState
    decreases |fs|
  {
    if fs == [] then s else ApplyClicks(Toggle(s, fs[0]), fs[1..])
  }

  /**
   * Clicks on the headers never select the name column: a selection reached
   * from one that is initial or not by name is itself initial or not by name.
   */
  lemma {:induction false} NameOnlyInitially(s: SortState, fs: seq<SortField>)
    requires s == InitialSort || s.field != Name
    requires forall i :: 0 <= i < |fs| ==> Clickable(fs[i])
    ensures ApplyClicks(s, fs) == InitialSort || ApplyClicks(s, fs).field != Name
    ensures fs != [] ==> ApplyClicks(s, fs).field != Name
    decreases |fs|
  {
    if fs != [] {
      NameOnlyInitially(Toggle(s, fs[0]), fs[1..]);
    }
  }

  // ---------------------------------------------------------------------------
  // Keys and their order

  /** A sort key: the text of a name or date column, or the number of a numeric one. */
  datatype Key = Text(s: string) | Amount(x: real)

  /** The value a column compares; for `Profit` it is computed, not stored. */
  function KeyOf(f: SortField, c: Campaign): Key {
    match f
    case Name => Text(c.name)
    case StartDate => Text(c.startDate)
    case Clicks => Amount(c.clicks as real)
    case Cost => Amount(c.cost)
    case Earnings => Amount(c.earnings)
    case Profit => Amount(c.Profit())
  }

  /** The `<` of two strings: lexicographic by character, a proper prefix first. */
  predicate TextLess(s: string, t: string)
    decreases |s|
  {
    if t == [] then false
    else if s == [] then true
    else if s[0] != t[0] then s[0] < t[0]
    else TextLess(s[1..], t[1..])
  }

  /** The `<` of two keys. Keys of different kinds never meet: every column has keys of one kind. */
  predicate KeyLess(a: Key, b: Key) {
    match (a, b)
    case (Text(s), Text(t)) => TextLess(s, t)
    case (Amount(x), Amount(y)) => x < y
    case _ => false
  }

  lemma {:induction false} TextLessIrreflexive(s: string)
    ensures !TextLess(s, s)
    decreases |s|
  {
    if s != [] {
      TextLessIrreflexive(s[1..]);
    }
  }

  lemma {:induction false} TextLessTransitive(s: string, t: string, u: string)
    requires TextLess(s, t) && TextLess(t, u)
    ensures TextLess(s, u)
    decreases |s|
  {
    if s != [] && s[0] == t[0] && t[0] == u[0] {
      TextLessTransitive(s[1..], t[1..], u[1..]);
    }
  }

  lemma {:induction false} TextTrichotomy(s: string, t: string)
    ensures TextLess(s, t) || TextLess(t, s) || s == t
    decreases |s|
  {
    if s != [] && t != [] && s[0] == t[0] {
      TextTrichotomy(s[1..], t[1..]);
      assert s == [s[0]] + s[1..] && t == [t[0]] + t[1..];
    }
  }

  /** Two keys of the same column are ordered one way, the other, or are equal; never both ways. */
  lemma KeyTrichotomy(f: SortField, a: Campaign, b: Campaign)
    ensures KeyLess(KeyOf(f, a), KeyOf(f, b)) || KeyLess(KeyOf(f, b), KeyOf(f, a)) || KeyOf(f, a) == KeyOf(f, b)
    ensures !(KeyLess(KeyOf(f, a), KeyOf(f, b)) && KeyLess(KeyOf(f, b), KeyOf(f, a)))
    ensures !KeyLess(KeyOf(f, a), KeyOf(f, a))
  {
    match (KeyOf(f, a), KeyOf(f, b))
    case (Text(s), Text(t)) =>
      TextTrichotomy(s, t);
      TextLessIrreflexive(s);
      if TextLess(s, t) && TextLess(t, s) {
        TextLessTransitive(s, t, s);
      }
    case (Amount(x), Amount(y)) =>
    case (Text(s), Amount(_)) =>
      TextLessIrreflexive(s);
    case (Amount(_), Text(_)) =>
  }

  lemma KeyLessTransitive(a: Key, b: Key, c: Key)
    requires KeyLess(a, b) && KeyLess(b, c)
    ensures KeyLess(a, c)
  {
    if a.Text? {
      TextLessTransitive(a.s, b.s, c.s);
    }
  }

  /** `a` goes strictly before `b` in direction `d`. */
  predicate Precedes(d: Direction, a: Key, b: Key) {
    if d == Asc then KeyLess(a, b) else KeyLess(b, a)
  }

  /** The table's comparator: negative when `a` goes first, positive when `b` does, 0 on a tie. */
  function Compare(f: SortField, d: Direction, a: Campaign, b: Campaign): (r: int)
    ensures r == -1 <==> Precedes(d, KeyOf(f, a), KeyOf(f, b))
    ensures r == 1 <==> Precedes(d, KeyOf(f, b), KeyOf(f, a))
    ensures r == 0 <==> KeyOf(f, a) == KeyOf(f, b)
  {
    KeyTrichotomy(f, a, b);
    var x, y := KeyOf(f, a), KeyOf(f, b);
    if d == Asc then
      (if KeyLess(x, y) then -1 else if KeyLess(y, x) then 1 else 0)
    else
      (if KeyLess(y, x) then -1 else if KeyLess(x, y) then 1 else 0)
  }

  /** No later element precedes an earlier one in direction `d`. */
  ghost predicate Sorted(f: SortField, d: Direction, s: seq<Campaign>) {
    forall i, j :: 0 <= i < j < |s| ==> !Precedes(d, KeyOf(f, s[j]), KeyOf(f, s[i]))
  }

  /** The records of `s` whose key in column `f` is `k`, in their order in `s`. */
  function WithKey(f: SortField, s: seq<Campaign>, k: Key): seq<Campaign> {
    if s == [] then []
    else (if KeyOf(f, s[0]) == k then [s[0]] else []) + WithKey(f, s[1..], k)
  }

  lemma {:induction false} WithKeyMembers(f: SortField, s: seq<Campaign>, k: Key)
    ensures forall c :: c in WithKey(f, s, k) <==> c in s && KeyOf(f, c) == k
    decreases |s|
  {
    if s != [] {
      WithKeyMembers(f, s[1..], k);
      assert s == [s[0]] + s[1..];
    }
  }

  /** `r` keeps the records of `s` that tie in column `f` in their order in `s`. */
  ghost predicate Stable(f: SortField, s: seq<Campaign>, r: seq<Campaign>) {
    forall k :: WithKey(f, r, k) == WithKey(f, s, k)
  }

  /** Inserting the earliest record into an already sorted view: it goes before every record that does not strictly precede it. */
  function Insert(f: SortField, d: Direction, x: Campaign, t: seq<Campaign>): (r: seq<Campaign>)
    ensures multiset(r) == multiset(t) + multiset{x}
    ensures |r| == |t| + 1
  {
    if t == [] then [x]
    else if Compare(f, d, t[0], x) < 0 then
      assert t == [t[0]] + t[1..];
      [t[0]] + Insert(f, d, x, t[1..])
    else [x] + t
  }

  /**
   * The table's rows: a stable sort of a copy of the stored list. The stored
   * list is a parameter, so it is not reordered.
   */
  function SortedView(cs: seq<Campaign>, f: SortField, d: Direction): (r: seq<Campaign>)
    ensures multiset(r) == multiset(cs)
    ensures |r| == |cs|
    ensures Sorted(f, d, r)
    ensures forall i :: 0 <= i < |r| - 1 ==> Compare(f, d, r[i], r[i + 1]) <= 0
    ensures Stable(f, cs, r)
  {
    if cs == [] then []
    else
      var rest := SortedView(cs[1..], f, d);
      InsertSorted(f, d, cs[0], rest);
      ConsStable(f, d, cs[0], cs[1..], rest);
      assert cs == [cs[0]] + cs[1..];
      Insert(f, d, cs[0], rest)
  }

  /** Inserting the next earlier record into a stable view of the rest gives a stable view of the whole. */
  lemma ConsStable(f: SortField, d: Direction, x: Campaign, tail: seq<Campaign>, view: seq<Campaign>)
    requires Stable(f, tail, view)
    ensures Stable(f, [x] + tail, Insert(f, d, x, view))
  {
    forall k ensures WithKey(f, Insert(f, d, x, view), k) == WithKey(f, [x] + tail, k) {
      InsertStable(f, d, x, view, k);
      WithKeyCons(f, x, view, k);
      WithKeyCons(f, x, tail, k);
    }
  }

  lemma WithKeyCons(f: SortField, x: Campaign, s: seq<Campaign>, k: Key)
    ensures WithKey(f, [x] + s, k) == (if KeyOf(f, x) == k then [x] else []) + WithKey(f, s, k)
  {
    assert ([x] + s)[1..] == s;
  }

  /** `!Precedes` is transitive within one column (the keys are totally ordered). */
  lemma NotPrecedesTransitive(f: SortField, d: Direction, a: Campaign, b: Campaign, c: Campaign)
    requires !Precedes(d, KeyOf(f, a), KeyOf(f, b)) && !Precedes(d, KeyOf(f, b), KeyOf(f, c))
    ensures !Precedes(d, KeyOf(f, a), KeyOf(f, c))
  {
    KeyTrichotomy(f, a, b);
    KeyTrichotomy(f, b, c);
    if Precedes(d, KeyOf(f, a), KeyOf(f, c)) {
      if d == Asc {
        KeyLessTransitive(KeyOf(f, b), KeyOf(f, a), KeyOf(f, c));
      } else {
        KeyLessTransitive(KeyOf(f, c), KeyOf(f, a), KeyOf(f, b));
      }
    }
  }

  /** No record of `t` strictly precedes `x`. */
  ghost predicate LowerBound(f: SortField, d: Direction, x: Campaign, t: seq<Campaign>) {
    forall c :: c in t ==> !Precedes(d, KeyOf(f, c), KeyOf(f, x))
  }

  lemma SortedConsIntro(f: SortField, d: Direction, x: Campaign, t: seq<Campaign>)
    requires Sorted(f, d, t) && LowerBound(f, d, x, t)
    ensures Sorted(f, d, [x] + t)
  {
    var s := [x] + t;
    forall i, j | 0 <= i < j < |s| ensures !Precedes(d, KeyOf(f, s[j]), KeyOf(f, s[i])) {
      assert s[j] == t[j - 1];
      if i > 0 {
        assert s[i] == t[i - 1];
      } else {
        assert s[j] in t;
      }
    }
  }

  lemma SortedConsElim(f: SortField, d: Direction, x: Campaign, t: seq<Campaign>)
    requires Sorted(f, d, [x] + t)
    ensures Sorted(f, d, t) && LowerBound(f, d, x, t)
  {
    var s := [x] + t;
    forall i, j | 0 <= i < j < |t| ensures !Precedes(d, KeyOf(f, t[j]), KeyOf(f, t[i])) {
      assert t[i] == s[i + 1] && t[j] == s[j + 1];
    }
    forall c | c in t ensures !Precedes(d, KeyOf(f, c), KeyOf(f, x)) {
      var i :| 0 <= i < |t| && t[i] == c;
      assert s[0] == x && s[i + 1] == c;
    }
  }

  lemma {:induction false} InsertSorted(f: SortField, d: Direction, x: Campaign, t: seq<Campaign>)
    requires Sorted(f, d, t)
    ensures Sorted(f, d, Insert(f, d, x, t))
    decreases |t|
  {
    if t == [] {
      assert Insert(f, d, x, t) == [x] + [];
      SortedConsIntro(f, d, x, []);
      return;
    }
    assert t == [t[0]] + t[1..];
    SortedConsElim(f, d, t[0], t[1..]);
    if Compare(f, d, t[0], x) < 0 {
      var rest := Insert(f, d, x, t[1..]);
      InsertSorted(f, d, x, t[1..]);
      forall c | c in rest ensures !Precedes(d, KeyOf(f, c), KeyOf(f, t[0])) {
        assert c in multiset(rest);
        if c == x {
          KeyTrichotomy(f, x, t[0]);
        } else {
          assert c in multiset(t[1..]);
        }
      }
      SortedConsIntro(f, d, t[0], rest);
    } else {
      assert !Precedes(d, KeyOf(f, t[0]), KeyOf(f, x));
      forall c | c in t ensures !Precedes(d, KeyOf(f, c), KeyOf(f, x)) {
        if c != t[0] {
          assert c in t[1..];
          assert !Precedes(d, KeyOf(f, c), KeyOf(f, t[0]));
          NotPrecedesTransitive(f, d, c, t[0], x);
        }
      }
      SortedConsIntro(f, d, x, t);
    }
  }

  /** Inserting `x` in front of records it ties with keeps each key's records in the order of `[x] + t`. */
  lemma {:induction false} InsertStable(f: SortField, d: Direction, x: Campaign, t: seq<Campaign>, k: Key)
    ensures WithKey(f, Insert(f, d, x, t), k) == WithKey(f, [x] + t, k)
    decreases |t|
  {
    if t != [] && Compare(f, d, t[0], x) < 0 {
      var t0, rest := t[0], t[1..];
      InsertStable(f, d, x, rest, k);
      InsertStep(f, d, x, t);
      WithKeyCons(f, t0, Insert(f, d, x, rest), k);
      WithKeyCons(f, x, rest, k);
      WithKeyCons(f, t0, rest, k);
      WithKeyCons(f, x, t, k);
      assert t == [t0] + rest;
      SwapHeads(if KeyOf(f, t0) == k then [t0] else [], if KeyOf(f, x) == k then [x] else [], WithKey(f, rest, k));
    }
  }

  lemma InsertStep(f: SortField, d: Direction, x: Campaign, t: seq<Campaign>)
    requires t != [] && Compare(f, d, t[0], x) < 0
    ensures Insert(f, d, x, t) == [t[0]] + Insert(f, d, x, t[1..])
  {
  }

  lemma SwapHeads(a: seq<Campaign>, b: seq<Campaign>, w: seq<Campaign>)
    requires a == [] || b == []
    ensures a + (b + w) == b + (a + w)
  {
  }

  /**
   * A sorted, stable arrangement of a list is unique. So whichever stable
   * algorithm `Array.prototype.sort` uses, the table shows `SortedView`.
   */
  lemma ViewIsTheStableSort(cs: seq<Campaign>, f: SortField, d: Direction, r: seq<Campaign>)
    requires Sorted(f, d, r) && Stable(f, cs, r)
    ensures r == SortedView(cs, f, d)
  {
    var v := SortedView(cs, f, d);
    SortedStableUnique(f, d, r, v);
  }

  lemma WithKeyOwnKey(f: SortField, s: seq<Campaign>)
    ensures s != [] ==> s[0] in WithKey(f, s, KeyOf(f, s[0]))
  {
    if s != [] {
      WithKeyMembers(f, s, KeyOf(f, s[0]));
    }
  }

  lemma SortedHeadFirst(f: SortField, d: Direction, s: seq<Campaign>)
    ensures s != [] && Sorted(f, d, s) ==> LowerBound(f, d, s[0], s)
  {
    if s != [] && Sorted(f, d, s) {
      forall c | c in s ensures !Precedes(d, KeyOf(f, c), KeyOf(f, s[0])) {
        KeyTrichotomy(f, s[0], s[0]);
        var j :| 0 <= j < |s| && s[j] == c;
      }
    }
  }

  lemma {:induction false} SortedStableUnique(f: SortField, d: Direction, p: seq<Campaign>, q: seq<Campaign>)
    requires Sorted(f, d, p) && Sorted(f, d, q)
    requires forall k :: WithKey(f, p, k) == WithKey(f, q, k)
    ensures p == q
    decreases |p|
  {
    WithKeyOwnKey(f, p);
    WithKeyOwnKey(f, q);
    SortedHeadFirst(f, d, p);
    SortedHeadFirst(f, d, q);
    if p == [] || q == [] {
      return;
    }
    KeyTrichotomy(f, p[0], q[0]);
    WithKeyMembers(f, q, KeyOf(f, p[0]));
    WithKeyMembers(f, p, KeyOf(f, q[0]));
    // A head whose key strictly preceded the other head's would have to occur,
    // by stability, later in the other list, which is then not sorted.
    assert KeyOf(f, p[0]) == KeyOf(f, q[0]);
    assert p == [p[0]] + p[1..] && q == [q[0]] + q[1..];
    var k0 := KeyOf(f, p[0]);
    WithKeyCons(f, p[0], p[1..], k0);
    WithKeyCons(f, q[0], q[1..], k0);
    assert p[0] == WithKey(f, p, k0)[0] == WithKey(f, q, k0)[0] == q[0];
    forall k ensures WithKey(f, p[1..], k) == WithKey(f, q[1..], k) {
      WithKeyCons(f, p[0], p[1..], k);
      WithKeyCons(f, q[0], q[1..], k);
      var h := if k == k0 then [p[0]] else [];
      assert WithKey(f, p[1..], k) == (h + WithKey(f, p[1..], k))[|h|..];
      assert WithKey(f, q[1..], k) == (h + WithKey(f, q[1..], k))[|h|..];
    }
    SortedConsElim(f, d, p[0], p[1..]);
    SortedConsElim(f, d, q[0], q[1..]);
    SortedStableUnique(f, d, p[1..], q[1..]);
  }

  // ---------------------------------------------------------------------------
  // Descending against ascending

  function Reverse(s: seq<Campaign>): (r: seq<Campaign>)
    ensures |r| == |s|
  {
    if s == [] then [] else Reverse(s[1..]) + [s[0]]
  }

  lemma {:induction false} ReverseAt(s: seq<Campaign>, i: nat)
    requires i < |s|
    ensures Reverse(s)[i] == s[|s| - 1 - i]
    decreases |s|
  {
    if i < |s| - 1 {
      ReverseAt(s[1..], i);
    }
  }

  lemma {:induction false} WithKeyAppend(f: SortField, a: seq<Campaign>, b: seq<Campaign>, k: Key)
    ensures WithKey(f, a + b, k) == WithKey(f, a, k) + WithKey(f, b, k)
    decreases |a|
  {
    if a == [] {
      assert a + b == b;
    } else {
      var x, rest := a[0], a[1..];
      var h := if KeyOf(f, x) == k then [x] else [];
      WithKeyAppend(f, rest, b, k);
      calc {
        WithKey(f, a + b, k);
        { assert a + b == [x] + (rest + b); WithKeyCons(f, x, rest + b, k); }
        h + WithKey(f, rest + b, k);
        h + (WithKey(f, rest, k) + WithKey(f, b, k));
        (h + WithKey(f, rest, k)) + WithKey(f, b, k);
        { assert a == [x] + rest; WithKeyCons(f, x, rest, k); }
        WithKey(f, a, k) + WithKey(f, b, k);
      }
    }
  }

  lemma {:induction false} WithKeyReverse(f: SortField, s: seq<Campaign>, k: Key)
    ensures WithKey(f, Reverse(s), k) == Reverse(WithKey(f, s, k))
    decreases |s|
  {
    if s != [] {
      var h := if KeyOf(f, s[0]) == k then [s[0]] else [];
      WithKeyReverse(f, s[1..], k);
      WithKeyAppend(f, Reverse(s[1..]), [s[0]], k);
      assert WithKey(f, [s[0]], k) == h by {
        WithKeyCons(f, s[0], [], k);
        assert [s[0]] + [] == [s[0]];
      }
      assert s == [s[0]] + s[1..];
      WithKeyCons(f, s[0], s[1..], k);
      var w := WithKey(f, s[1..], k);
      if h != [] {
        assert (h + w)[1..] == w;
      } else {
        assert h + w == w;
      }
    }
  }

  lemma NoLaterTie(f: SortField, cs: seq<Campaign>)
    requires cs != []
    requires forall i, j :: 0 <= i < j < |cs| ==> KeyOf(f, cs[i]) != KeyOf(f, cs[j])
    ensures forall c :: c in cs[1..] ==> KeyOf(f, c) != KeyOf(f, cs[0])
  {
    forall c | c in cs[1..] ensures KeyOf(f, c) != KeyOf(f, cs[0]) {
      var j :| 0 <= j < |cs[1..]| && cs[1..][j] == c;
      assert cs[j + 1] == c;
    }
  }

  lemma HeadIsMember(s: seq<Campaign>)
    ensures s != [] ==> s[0] in s
  {
  }

  /** When no two campaigns tie in column `f`, every key has at most one campaign. */
  lemma {:induction false} DistinctKeysWithKeyShort(f: SortField, cs: seq<Campaign>, k: Key)
    requires forall i, j :: 0 <= i < j < |cs| ==> KeyOf(f, cs[i]) != KeyOf(f, cs[j])
    ensures |WithKey(f, cs, k)| <= 1
    decreases |cs|
  {
    if cs != [] {
      DistinctKeysWithKeyShort(f, cs[1..], k);
      NoLaterTie(f, cs);
      WithKeyMembers(f, cs[1..], k);
      HeadIsMember(WithKey(f, cs[1..], k));
    }
  }

  /** When no two campaigns tie in column `f`, the descending view is the ascending view reversed. */
  lemma DistinctKeysDescendingIsReversed(cs: seq<Campaign>, f: SortField)
    requires forall i, j :: 0 <= i < j < |cs| ==> KeyOf(f, cs[i]) != KeyOf(f, cs[j])
    ensures SortedView(cs, f, Desc) == Reverse(SortedView(cs, f, Asc))
  {
    var a := SortedView(cs, f, Asc);
    var r := Reverse(a);
    forall i, j | 0 <= i < j < |r| ensures !Precedes(Desc, KeyOf(f, r[j]), KeyOf(f, r[i])) {
      ReverseAt(a, i);
      ReverseAt(a, j);
    }
    forall k ensures WithKey(f, r, k) == WithKey(f, cs, k) {
      WithKeyReverse(f, a, k);
      DistinctKeysWithKeyShort(f, cs, k);
      var w := WithKey(f, a, k);
      assert |w| <= 1;
      assert Reverse(w) == w by {
        if |w| == 1 {
          assert w[1..] == [];
        }
      }
    }
    ViewIsTheStableSort(cs, f, Desc, r);
  }
}
