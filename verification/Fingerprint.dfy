/**
ReplyFingerprint of internal/model/reply.go: what a reply asks for, as one string. The
SHA-256 digest of that string is taken to tell different strings apart, so the string
itself stands for the digest. Characters are octets.
*/
module Fingerprint {
  import opened Strings

  const ZERO := '\0'
  const UNIT := '\U{1F}'

  /** One thing asked for: the checklist item and the reason code. */
  datatype Want = Want(id: string, code: string)

  /** Which policy, everything is in, or these items are missing. */
  datatype Kind = Question | Done | Request

  function KindText(k: Kind): string {
    match k
    case Question => "policy_unknown"
    case Done => "completion"
    case Request => "missing_items"
  }

  datatype Ask = Ask(kind: Kind, wants: seq<Want>)

  function Key(m: Want): string {
    m.id + [UNIT] + m.code
  }

  function Map<A, B>(f: A -> B, s: seq<A>): (r: seq<B>) {
    seq(|s|, i requires 0 <= i < |s| => f(s[i]))
  }

  // ---- sorting ----

  predicate Sorted(s: seq<string>) {
    forall i, j :: 0 <= i < j < |s| ==> AtMost(s[i], s[j])
  }

  function Insert(x: string, s: seq<string>): (r: seq<string>)
    ensures multiset(r) == multiset(s) + multiset{x}
  {
    if |s| == 0 then [x]
    else if AtMost(x, s[0]) then [x] + s
    else
      assert s == [s[0]] + s[1..];
      [s[0]] + Insert(x, s[1..])
  }

  function Sort(s: seq<string>): (r: seq<string>)
    ensures multiset(r) == multiset(s)
  {
    if |s| == 0 then []
    else
      assert s == [s[0]] + s[1..];
      Insert(s[0], Sort(s[1..]))
  }

  lemma {:induction false} InsertIsSorted(x: string, s: seq<string>)
    requires Sorted(s)
    ensures Sorted(Insert(x, s))
  {
    if |s| > 0 {
      AtMostIsTotal(x, s[0]);
      if AtMost(x, s[0]) {
        forall j | 0 <= j < |s| ensures AtMost(x, s[j]) {
          if j > 0 {
            AtMostIsTransitive(x, s[0], s[j]);
          }
        }
      } else {
        InsertIsSorted(x, s[1..]);
        var rest := Insert(x, s[1..]);
        forall j | 0 <= j < |rest| ensures AtMost(s[0], rest[j]) {
          assert rest[j] in multiset(rest);
          assert rest[j] == x || rest[j] in s[1..];
        }
      }
    }
  }

  lemma {:induction false} SortIsSorted(s: seq<string>)
    ensures Sorted(Sort(s))
  {
    if |s| > 0 {
      SortIsSorted(s[1..]);
      InsertIsSorted(s[0], Sort(s[1..]));
    }
  }

  lemma HeadIsLeast(a: seq<string>, b: seq<string>)
    requires Sorted(a) && |a| > 0 && |b| > 0 && multiset(a) == multiset(b)
    ensures AtMost(a[0], b[0])
  {
    assert b[0] in multiset(b);
    assert b[0] in a;
    AtMostIsTotal(a[0], a[0]);
  }

  lemma SameHead(a: seq<string>, b: seq<string>)
    requires Sorted(a) && Sorted(b) && |a| > 0 && |b| > 0 && multiset(a) == multiset(b)
    ensures a[0] == b[0]
  {
    HeadIsLeast(a, b);
    HeadIsLeast(b, a);
    AtMostIsAntisymmetric(a[0], b[0]);
  }

  function Without<A>(s: seq<A>, j: nat): seq<A>
    requires j < |s|
  {
    s[..j] + s[j + 1..]
  }

  lemma MultisetWithout<A>(s: seq<A>, j: nat)
    requires j < |s|
    ensures multiset(s) == multiset(Without(s, j)) + multiset{s[j]}
  {
    assert s == s[..j] + [s[j]] + s[j + 1..];
  }

  lemma SameWithout<A>(a: seq<A>, i: nat, b: seq<A>, j: nat)
    requires i < |a| && j < |b| && a[i] == b[j] && multiset(a) == multiset(b)
    ensures multiset(Without(a, i)) == multiset(Without(b, j))
  {
    MultisetWithout(a, i);
    MultisetWithout(b, j);
    assert multiset(Without(a, i)) == multiset(a) - multiset{a[i]};
    assert multiset(Without(b, j)) == multiset(b) - multiset{b[j]};
  }

  lemma SortedTail(s: seq<string>)
    requires Sorted(s) && |s| > 0
    ensures Sorted(Without(s, 0)) && s == [s[0]] + Without(s, 0)
  {
  }

  /** There is one sorted order: what any sorting routine returns. */
  lemma {:induction false} SortedIsUnique(a: seq<string>, b: seq<string>)
    requires Sorted(a) && Sorted(b) && multiset(a) == multiset(b)
    ensures a == b
    decreases |a|
  {
    assert |a| == |multiset(a)| == |multiset(b)| == |b|;
    if |a| > 0 {
      SameHead(a, b);
      SortedTail(a);
      SortedTail(b);
      SameWithout(a, 0, b, 0);
      SortedIsUnique(Without(a, 0), Without(b, 0));
    }
  }

  // ---- permutations through a map ----

  lemma {:induction false} MapPermutes<A, B>(f: A -> B, a: seq<A>, b: seq<A>)
    requires multiset(a) == multiset(b)
    ensures multiset(Map(f, a)) == multiset(Map(f, b))
    decreases |a|
  {
    assert |a| == |multiset(a)| == |multiset(b)| == |b|;
    if |a| > 0 {
      assert a[0] in multiset(b);
      var j :| 0 <= j < |b| && b[j] == a[0];
      SameWithout(a, 0, b, j);
      MapPermutes(f, Without(a, 0), Without(b, j));
      MapWithout(f, a, 0);
      MapWithout(f, b, j);
    }
  }

  lemma MapOneMore<A, B>(f: A -> B, s: seq<A>, i: nat)
    requires i < |s|
    ensures Map(f, s[..i + 1]) == Map(f, s[..i]) + [f(s[i])]
  {
  }

  lemma MapWithout<A, B>(f: A -> B, b: seq<A>, j: nat)
    requires j < |b|
    ensures multiset(Map(f, b)) == multiset(Map(f, Without(b, j))) + multiset{f(b[j])}
  {
    assert Map(f, Without(b, j)) == Without(Map(f, b), j);
    MultisetWithout(Map(f, b), j);
  }

  // ---- the encoding ----

  function Flat(keys: seq<string>): string {
    if |keys| == 0 then "" else [ZERO] + (keys[0] + Flat(keys[1..]))
  }

  function Print(a: Ask): string {
    KindText(a.kind) + Flat(Sort(Map(Key, a.wants)))
  }

  method ReplyFingerprint(kind: Kind, wants: seq<Want>) returns (h: string)
    ensures h == Print(Ask(kind, wants))
  {
    var keys: seq<string> := [];
    for i := 0 to |wants|
      invariant keys == Map(Key, wants[..i])
    {
      MapOneMore(Key, wants, i);
      keys := keys + [Key(wants[i])];
    }
    assert wants[..|wants|] == wants;
    keys := Sort(keys);
    h := KindText(kind);
    for i := 0 to |keys|
      invariant KindText(kind) + Flat(keys) == h + Flat(keys[i..])
    {
      assert keys[i..][1..] == keys[i + 1..];
      h := h + [ZERO];
      h := h + keys[i];
    }
  }

  // ---- and back ----

  function SplitZero(t: string): seq<string>
    decreases |t|
  {
    var i := IndexOf(t, ZERO);
    if i == |t| then [t] else [t[..i]] + SplitZero(t[i + 1..])
  }

  lemma {:induction false} SplitFlat(first: string, keys: seq<string>)
    requires ZERO !in first && forall i :: 0 <= i < |keys| ==> ZERO !in keys[i]
    ensures SplitZero(first + Flat(keys)) == [first] + keys
    decreases |keys|
  {
    if |keys| == 0 {
      assert first + Flat(keys) == first;
      assert IndexOf(first, ZERO) == |first|;
    } else {
      SplitOne(first, keys[0] + Flat(keys[1..]));
      SplitFlat(keys[0], keys[1..]);
      assert keys == [keys[0]] + keys[1..];
    }
  }

  lemma SplitOne(first: string, rest: string)
    requires ZERO !in first
    ensures SplitZero(first + ([ZERO] + rest)) == [first] + SplitZero(rest)
  {
    var t := first + ([ZERO] + rest);
    IndexInConcat(first, [ZERO] + rest, ZERO);
    assert ([ZERO] + rest)[0] == ZERO;
    assert IndexOf([ZERO] + rest, ZERO) == 0;
    assert t[..|first|] == first;
    assert t[|first| + 1..] == rest;
  }

  /** The last unit separator, or the length. */
  function LastUnit(k: string): (i: nat)
    ensures i <= |k|
  {
    if |k| == 0 then 0
    else if k[|k| - 1] == UNIT then |k| - 1
    else
      var i := LastUnit(k[..|k| - 1]);
      if i == |k| - 1 then |k| else i
  }

  function Unkey(k: string): Want {
    var i := LastUnit(k);
    if i == |k| then Want(k, "") else Want(k[..i], k[i + 1..])
  }

  lemma {:induction false} LastUnitOfKey(id: string, code: string)
    requires UNIT !in code
    ensures LastUnit(id + [UNIT] + code) == |id|
    decreases |code|
  {
    var k := id + [UNIT] + code;
    if |code| == 0 {
      assert k[|k| - 1] == UNIT;
    } else {
      LastUnitOfKey(id, code[..|code| - 1]);
      assert k[..|k| - 1] == id + [UNIT] + code[..|code| - 1];
      assert k[|k| - 1] == code[|code| - 1];
    }
  }

  /** The reason codes are words of the program; the ids come from the checklists. */
  predicate Clean(a: Ask) {
    forall m :: m in a.wants ==> ZERO !in m.id && ZERO !in m.code && UNIT !in m.code
  }

  lemma UnkeyKey(m: Want)
    requires UNIT !in m.code
    ensures Unkey(Key(m)) == m
  {
    LastUnitOfKey(m.id, m.code);
    assert Key(m)[..|m.id|] == m.id && Key(m)[|m.id| + 1..] == m.code;
  }

  lemma CleanKey(m: Want)
    requires ZERO !in m.id && ZERO !in m.code
    ensures ZERO !in Key(m)
  {
  }

  lemma KeysAreClean(a: Ask)
    requires Clean(a)
    ensures forall k :: k in Sort(Map(Key, a.wants)) ==> ZERO !in k
  {
    var keys := Map(Key, a.wants);
    forall k | k in Sort(keys) ensures ZERO !in k {
      assert k in multiset(Sort(keys));
      assert k in keys;
      var i :| 0 <= i < |keys| && keys[i] == k;
      assert a.wants[i] in a.wants;
      CleanKey(a.wants[i]);
    }
  }

  lemma UnkeyAll(a: Ask)
    requires Clean(a)
    ensures Map(Unkey, Map(Key, a.wants)) == a.wants
  {
    var back := Map(Unkey, Map(Key, a.wants));
    forall i | 0 <= i < |a.wants| ensures back[i] == a.wants[i] {
      UnkeyKey(a.wants[i]);
    }
  }

  /** The same kind of reply about the same items for the same reasons, in any order. */
  predicate SameAsk(a: Ask, b: Ask) {
    a.kind == b.kind && multiset(a.wants) == multiset(b.wants)
  }

  /** Order does not matter: this half needs nothing of the ids. */
  lemma SameAskSamePrint(a: Ask, b: Ask)
    requires SameAsk(a, b)
    ensures Print(a) == Print(b)
  {
    var x, y := Map(Key, a.wants), Map(Key, b.wants);
    MapPermutes(Key, a.wants, b.wants);
    SortIsSorted(x);
    SortIsSorted(y);
    SortedIsUnique(Sort(x), Sort(y));
  }

  lemma SameKind(k: Kind, l: Kind)
    ensures KindText(k) == KindText(l) ==> k == l
    ensures ZERO !in KindText(k)
  {
  }

  /** A fingerprint tells every two clean asks apart. */
  lemma SamePrintSameAsk(a: Ask, b: Ask)
    requires Clean(a) && Clean(b) && Print(a) == Print(b)
    ensures SameAsk(a, b)
  {
    var x, y := Map(Key, a.wants), Map(Key, b.wants);
    KeysAreClean(a);
    KeysAreClean(b);
    SameKind(a.kind, a.kind);
    SameKind(b.kind, b.kind);
    SplitFlat(KindText(a.kind), Sort(x));
    SplitFlat(KindText(b.kind), Sort(y));
    assert [KindText(a.kind)] + Sort(x) == [KindText(b.kind)] + Sort(y);
    assert ([KindText(a.kind)] + Sort(x))[1..] == Sort(x) && ([KindText(b.kind)] + Sort(y))[1..] == Sort(y);
    SameKind(a.kind, b.kind);
    assert multiset(x) == multiset(y);
    MapPermutes(Unkey, x, y);
    UnkeyAll(a);
    UnkeyAll(b);
  }

  lemma PrintOne(kind: Kind, m: Want)
    ensures Print(Ask(kind, [m])) == KindText(kind) + ([ZERO] + Key(m))
  {
    var k := Key(m);
    assert Map(Key, [m]) == [k];
    assert [k][1..] == [];
    assert Flat([k]) == [ZERO] + (k + Flat([]));
    assert k + Flat([]) == k;
  }

  lemma PrintTwo(kind: Kind, m: Want, n: Want)
    requires AtMost(Key(m), Key(n))
    ensures Print(Ask(kind, [m, n])) == KindText(kind) + ([ZERO] + (Key(m) + ([ZERO] + Key(n))))
  {
    var k, l := Key(m), Key(n);
    assert Map(Key, [m, n]) == [k, l];
    assert [k, l][1..] == [l] && [l][1..] == [];
    assert Sort([l]) == [l];
    assert Flat([l]) == [ZERO] + (l + Flat([]));
    assert l + Flat([]) == l;
  }

  /** The name of the reply, then each item's id and code behind a unit separator, in sorted order. */
  lemma PrintedParts(a: Ask)
    requires Clean(a)
    ensures var parts := SplitZero(Print(a));
      && |parts| > 0 && Sorted(parts[1..])
      && parts[0] == (if a.kind == Question then "policy_unknown" else if a.kind == Done then "completion"
                      else "missing_items")
      && multiset(parts[1..]) == multiset(Map((m: Want) => m.id + "\U{1F}" + m.code, a.wants))
  {
    var keys := Map(Key, a.wants);
    assert keys == Map((m: Want) => m.id + "\U{1F}" + m.code, a.wants);
    KeysAreClean(a);
    SameKind(a.kind, a.kind);
    SplitFlat(KindText(a.kind), Sort(keys));
    SortIsSorted(keys);
    assert ([KindText(a.kind)] + Sort(keys))[1..] == Sort(keys);
  }

  /** With a zero octet in an id, one item prints as two. */
  lemma ZeroInIdCollides()
    ensures var whole := Want("loss_runs" + [UNIT] + "not_provided" + [ZERO] + "sov", "not_provided");
      var a := Ask(Request, [whole]);
      var b := Ask(Request, [Want("loss_runs", "not_provided"), Want("sov", "not_provided")]);
      Print(a) == Print(b) && !SameAsk(a, b)
  {
    var whole := Want("loss_runs" + [UNIT] + "not_provided" + [ZERO] + "sov", "not_provided");
    var m, n := Want("loss_runs", "not_provided"), Want("sov", "not_provided");
    PrintOne(Request, whole);
    PrintTwo(Request, m, n);
    assert Key(whole) == Key(m) + ([ZERO] + Key(n));
    var one: seq<Want>, two: seq<Want> := [whole], [m, n];
    assert |multiset(one)| == |one| && |multiset(two)| == |two|;
  }
}
