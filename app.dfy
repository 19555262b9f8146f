/// The inventory screen: the list of spools and the operations on it —
/// saving under a unique display name, deleting, deducting a print, the
/// search filter and the stock totals.
module App {
  import opened JsNumber
  import opened JsString
  import opened Types
  import ProgressBar
  import DeductModal

  // ---------------------------------------------------------------------------
  // Array#filter and order
  // ---------------------------------------------------------------------------

  /** `s.filter(keep)`: the elements that pass, in their order. */
  function Filter<T(==,!new)>(s: seq<T>, keep: T -> bool): (r: seq<T>)
    ensures |r| <= |s|
    ensures forall x :: x in r <==> x in s && keep(x)
    ensures multiset(r) <= multiset(s)
  {
    if s == [] then []
    else
      assert s == [s[0]] + s[1..];
      (if keep(s[0]) then [s[0]] else []) + Filter(s[1..], keep)
  }

  /** `r` can be obtained from `s` by deleting elements (matched greedily from
      the left), so it keeps their relative order. */
  predicate IsSubsequence<T(==,!new)>(r: seq<T>, s: seq<T>)
    decreases |s|
  {
    r == [] || (s != [] && if r[0] == s[0] then IsSubsequence(r[1..], s[1..]) else IsSubsequence(r, s[1..]))
  }

  lemma {:induction false} FilterIsSubsequence<T(!new)>(s: seq<T>, keep: T -> bool)
    ensures IsSubsequence(Filter(s, keep), s)
    decreases |s|
  {
    if s != [] {
      FilterIsSubsequence(s[1..], keep);
      var rest := Filter(s[1..], keep);
      if keep(s[0]) {
        assert Filter(s, keep) == [s[0]] + rest;
        assert ([s[0]] + rest)[1..] == rest;
      } else {
        assert Filter(s, keep) == rest;
        SubsequenceSkip(rest, s);
      }
    }
  }

  /** Dropping the head of `s` that `r` does not need keeps `r` a subsequence:
      either `r` skips the head, or the head matches and the rest follows. */
  lemma {:induction false} SubsequenceSkip<T(!new)>(r: seq<T>, s: seq<T>)
    requires s != [] && IsSubsequence(r, s[1..])
    ensures IsSubsequence(r, s)
    decreases |s|, |r|
  {
    if r != [] && r[0] == s[0] {
      SubsequenceTail(r, s[1..]);
    }
  }

  /** A subsequence stays one when its own head is dropped. */
  lemma {:induction false} SubsequenceTail<T(!new)>(r: seq<T>, s: seq<T>)
    requires r != [] && IsSubsequence(r, s)
    ensures IsSubsequence(r[1..], s)
    decreases |s|, |r|
  {
    if r[0] == s[0] {
      SubsequenceSkip(r[1..], s);
    } else {
      SubsequenceTail(r, s[1..]);
      SubsequenceSkip(r[1..], s);
    }
  }

  /** Filtering a concatenation filters each part. */
  lemma {:induction false} FilterAppend<T(!new)>(a: seq<T>, b: seq<T>, keep: T -> bool)
    ensures Filter(a + b, keep) == Filter(a, keep) + Filter(b, keep)
    decreases |a|
  {
    if a == [] {
      assert a + b == b;
    } else {
      assert (a + b)[0] == a[0];
      assert (a + b)[1..] == a[1..] + b;
      FilterAppend(a[1..], b, keep);
    }
  }

  /** Two tests that agree on every element filter alike. */
  lemma {:induction false} FilterCongruent<T(!new)>(s: seq<T>, keep: T -> bool, keep': T -> bool)
    requires forall x :: x in s ==> keep(x) == keep'(x)
    ensures Filter(s, keep) == Filter(s, keep')
    decreases |s|
  {
    if s != [] {
      FilterCongruent(s[1..], keep, keep');
    }
  }

  /** A filter keeps the whole sequence when every element passes. */
  lemma {:induction false} FilterAll<T(!new)>(s: seq<T>, keep: T -> bool)
    requires forall i :: 0 <= i < |s| ==> keep(s[i])
    ensures Filter(s, keep) == s
    decreases |s|
  {
    if s != [] {
      assert forall i :: 0 <= i < |s[1..]| ==> keep(s[1..][i]) by {
        forall i | 0 <= i < |s[1..]| ensures keep(s[1..][i]) { assert s[1..][i] == s[i + 1]; }
      }
      FilterAll(s[1..], keep);
      assert s == [s[0]] + s[1..];
    }
  }

  /** ... and only then. */
  lemma FilterAllIff<T(!new)>(s: seq<T>, keep: T -> bool)
    ensures Filter(s, keep) == s <==> forall i :: 0 <= i < |s| ==> keep(s[i])
  {
    if forall i :: 0 <= i < |s| ==> keep(s[i]) {
      FilterAll(s, keep);
    } else {
      var i :| 0 <= i < |s| && !keep(s[i]);
      assert s[i] in s;
    }
  }

  // ---------------------------------------------------------------------------
  // Lookup, replacement, identity
  // ---------------------------------------------------------------------------

  /** No two entries share an id. New spools get a fresh random id, so the
      list normally has this shape; the operations below keep it. */
  predicate UniqueIds(fs: seq<Filament>) {
    forall i, j :: 0 <= i < j < |fs| ==> fs[i].id != fs[j].id
  }

  /** The index `find` stops at: the first entry with the id. */
  function FirstIndex(fs: seq<Filament>, id: string): (r: Option<nat>)
    ensures r.None? <==> forall k :: 0 <= k < |fs| ==> fs[k].id != id
    ensures r.Some? ==> r.value < |fs| && fs[r.value].id == id
    ensures r.Some? ==> forall j :: 0 <= j < r.value ==> fs[j].id != id
  {
    if fs == [] then None
    else if fs[0].id == id then Some(0)
    else match FirstIndex(fs[1..], id)
      case None => None
      case Some(k) => Some(k + 1)
  }

  /** `filaments.find(f => f.id === id)`. */
  function Find(fs: seq<Filament>, id: string): (r: Option<Filament>)
    ensures r.None? <==> forall k :: 0 <= k < |fs| ==> fs[k].id != id
    ensures r.Some? ==> r.value in fs && r.value.id == id
  {
    match FirstIndex(fs, id)
    case None => None
    case Some(k) => Some(fs[k])
  }

  /** With unique ids the entry found is the one at the id's only position. */
  lemma FindUnique(fs: seq<Filament>, i: int)
    requires UniqueIds(fs) && 0 <= i < |fs|
    ensures Find(fs, fs[i].id) == Some(fs[i])
  {
    var k := FirstIndex(fs, fs[i].id).value;
    assert !(k < i) && !(i < k);
  }

  /** `fs.map(f => f.id === g.id ? g : f)`. */
  function Replaced(fs: seq<Filament>, g: Filament): (r: seq<Filament>)
    ensures |r| == |fs|
    ensures forall k :: 0 <= k < |fs| ==> r[k].id == fs[k].id
    ensures forall k :: 0 <= k < |fs| && fs[k].id != g.id ==> r[k] == fs[k]
    ensures forall k :: 0 <= k < |fs| && fs[k].id == g.id ==> r[k] == g
  {
    if fs == [] then []
    else [if fs[0].id == g.id then g else fs[0]] + Replaced(fs[1..], g)
  }

  /** `fs.filter(f => f.id !== id)`. */
  function Deleted(fs: seq<Filament>, id: string): (r: seq<Filament>)
    ensures forall f :: f in r <==> f in fs && f.id != id
  {
    Filter(fs, (f: Filament) => f.id != id)
  }

  /** Delete keeps the other entries in their order and, when the id is absent,
      changes nothing. */
  lemma DeletedKeepsOrder(fs: seq<Filament>, id: string)
    ensures IsSubsequence(Deleted(fs, id), fs)
    ensures (forall k :: 0 <= k < |fs| ==> fs[k].id != id) ==> Deleted(fs, id) == fs
  {
    FilterIsSubsequence(fs, (f: Filament) => f.id != id);
    FilterAllIff(fs, (f: Filament) => f.id != id);
  }

  /** A subsequence of a list with unique ids has unique ids. */
  lemma {:induction false} DeletedKeepsUniqueIds(fs: seq<Filament>, id: string)
    requires UniqueIds(fs)
    ensures UniqueIds(Deleted(fs, id))
    decreases |fs|
  {
    if fs != [] {
      DeletedKeepsUniqueIds(fs[1..], id);
      var rest := Deleted(fs[1..], id);
      assert Deleted(fs, id) == (if fs[0].id != id then [fs[0]] else []) + rest;
      forall f | f in rest ensures f.id != fs[0].id {
        var k :| 0 <= k < |fs[1..]| && fs[1..][k] == f;
        assert fs[k + 1] == f;
      }
    }
  }

  /** Replacing the entries with `g`'s id leaves the others, in order: deleting
      that id afterwards gives what deleting it before gives. */
  lemma {:induction false} ReplacedKeepsOthers(fs: seq<Filament>, g: Filament)
    ensures Deleted(Replaced(fs, g), g.id) == Deleted(fs, g.id)
    decreases |fs|
  {
    if fs != [] {
      ReplacedKeepsOthers(fs[1..], g);
      var r := Replaced(fs, g);
      assert r[1..] == Replaced(fs[1..], g);
      assert r[0].id == fs[0].id;
    }
  }

  lemma ReplacedKeepsUniqueIds(fs: seq<Filament>, g: Filament)
    requires UniqueIds(fs)
    ensures UniqueIds(Replaced(fs, g))
  {
  }

  // ---------------------------------------------------------------------------
  // Stock totals
  // ---------------------------------------------------------------------------

  /** The grams below which a spool counts as low on stock. */
  const LowStockLine: real := 200.0

  /** `filaments.reduce((acc, f) => acc + f.currentWeight, 0)`, a fold from
      the left. */
  function TotalStock(fs: seq<Filament>): (total: real)
    ensures (forall k :: 0 <= k < |fs| ==> fs[k].currentWeight >= 0.0) ==> total >= 0.0
  {
    if fs == [] then 0.0 else TotalStock(fs[..|fs| - 1]) + fs[|fs| - 1].currentWeight
  }

  /** The total of a concatenation is the sum of the totals. */
  lemma {:induction false} TotalStockAppend(a: seq<Filament>, b: seq<Filament>)
    ensures TotalStock(a + b) == TotalStock(a) + TotalStock(b)
    decreases |b|
  {
    if b == [] {
      assert a + b == a;
    } else {
      var b' := b[..|b| - 1];
      assert (a + b)[..|a + b| - 1] == a + b';
      TotalStockAppend(a, b');
    }
  }

  /** The total around one entry. */
  lemma TotalStockSplit(pre: seq<Filament>, f: Filament, post: seq<Filament>)
    ensures TotalStock(pre + [f] + post) == TotalStock(pre) + f.currentWeight + TotalStock(post)
  {
    TotalStockAppend(pre + [f], post);
    TotalStockAppend(pre, [f]);
    assert [f][..0] == [];
  }

  /** Replacing one entry (of a list with unique ids) changes the total by the
      difference of the two weights. */
  lemma ReplacedTotal(fs: seq<Filament>, g: Filament, i: int)
    requires UniqueIds(fs) && 0 <= i < |fs| && fs[i].id == g.id
    ensures TotalStock(Replaced(fs, g)) == TotalStock(fs) - fs[i].currentWeight + g.currentWeight
  {
    var pre, post := fs[..i], fs[i + 1..];
    var r := Replaced(fs, g);
    assert fs == pre + [fs[i]] + post;
    assert r == pre + [g] + post by {
      forall k | 0 <= k < |r| ensures r[k] == (pre + [g] + post)[k] {
        if k != i { assert fs[k].id != g.id; }
      }
    }
    hide *;
    TotalStockSplit(pre, fs[i], post);
    TotalStockSplit(pre, g, post);
  }

  /** `filaments.filter(f => f.currentWeight < 200)`: exactly the spools the
      stock bar flags as low at its default threshold. */
  function LowStock(fs: seq<Filament>): (r: seq<Filament>)
    ensures forall f :: f in r <==> f in fs && ProgressBar.IsLowStock(f.currentWeight, ProgressBar.DefaultThreshold)
    ensures |r| <= |fs|
  {
    Filter(fs, (f: Filament) => f.currentWeight < LowStockLine)
  }

  /** The low-stock count of a concatenation is the sum of the counts, so a
      spool counts once per entry. */
  lemma LowStockAppend(a: seq<Filament>, b: seq<Filament>)
    ensures |LowStock(a + b)| == |LowStock(a)| + |LowStock(b)|
  {
    FilterAppend(a, b, (f: Filament) => f.currentWeight < LowStockLine);
  }

  // ---------------------------------------------------------------------------
  // Search
  // ---------------------------------------------------------------------------

  /** The search predicate: the lower-cased name, brand or material contains
      the lower-cased term. */
  predicate Matches(f: Filament, term: string) {
    var t := Lower(term);
    Includes(Lower(f.name), t) || Includes(Lower(f.brand), t) || Includes(Lower(MaterialName(f.material)), t)
  }

  function Search(fs: seq<Filament>, term: string): (r: seq<Filament>)
    ensures forall f :: f in r <==> f in fs && Matches(f, term)
    ensures |r| <= |fs|
  {
    Filter(fs, (f: Filament) => Matches(f, term))
  }

  /** The search keeps the list's order, an empty term keeps everything, and
      the case of the term does not matter. */
  lemma SearchProperties(fs: seq<Filament>, term: string)
    ensures IsSubsequence(Search(fs, term), fs)
    ensures Search(fs, "") == fs
    ensures Search(fs, Lower(term)) == Search(fs, term)
  {
    FilterIsSubsequence(fs, (f: Filament) => Matches(f, term));
    forall i | 0 <= i < |fs| ensures Matches(fs[i], "") {
      IncludesEmpty(Lower(fs[i].name));
    }
    FilterAllIff(fs, (f: Filament) => Matches(f, ""));
    LowerIdempotent(term);
    FilterCongruent(fs, (f: Filament) => Matches(f, Lower(term)), (f: Filament) => Matches(f, term));
  }

  // ---------------------------------------------------------------------------
  // Unique display names
  // ---------------------------------------------------------------------------

  /** The name used when a spool has none ("consumable"). */
  const DefaultName: string := "耗材"

  /** `f.name || "耗材"`: how a stored name is compared. */
  function EffectiveName(f: Filament): (n: string)
    ensures n != []
    ensures f.name != [] ==> n == f.name
  {
    if f.name == "" then DefaultName else f.name
  }

  /** `name.trim() || "耗材"`: never empty, never padded with white space; the
      default exactly covers names of white space only. */
  function BaseName(name: string): (b: string)
    ensures b != [] && !IsWhiteSpace(b[0]) && !IsWhiteSpace(b[|b| - 1])
    ensures (forall k :: 0 <= k < |name| ==> IsWhiteSpace(name[k])) ==> b == DefaultName
    ensures !(forall k :: 0 <= k < |name| ==> IsWhiteSpace(name[k])) ==> b == Trim(name)
  {
    TrimFacts(name);
    var t := Trim(name);
    if t == [] then DefaultName else t
  }

  /** Some entry with another id already shows `name`. */
  predicate IsDuplicate(fs: seq<Filament>, id: string, name: string) {
    exists k :: 0 <= k < |fs| && fs[k].id != id && EffectiveName(fs[k]) == name
  }

  /** `${base} (${n})`. */
  function Numbered(base: string, n: nat): (s: string)
    ensures |s| > |base| + 3
  {
    base + " (" + NatToString(n) + ")"
  }

  /** Different counters give different names. */
  lemma NumberedInjective(base: string, a: nat, b: nat)
    requires Numbered(base, a) == Numbered(base, b)
    ensures a == b
  {
    var s := Numbered(base, a);
    assert NatToString(a) == s[|base| + 2..|s| - 1];
    assert NatToString(b) == s[|base| + 2..|s| - 1];
    NatToStringInjective(a, b);
  }

  /** The names shown by entries with another id. */
  function OtherNames(fs: seq<Filament>, id: string): (names: set<string>)
    ensures forall name :: name in names <==> IsDuplicate(fs, id, name)
  {
    set k | 0 <= k < |fs| && fs[k].id != id :: EffectiveName(fs[k])
  }

  lemma {:induction false} OtherNamesBound(fs: seq<Filament>, id: string)
    ensures |OtherNames(fs, id)| <= |fs|
    decreases |fs|
  {
    if fs != [] {
      var init := fs[..|fs| - 1];
      OtherNamesBound(init, id);
      assert OtherNames(fs, id) <= OtherNames(init, id) + {EffectiveName(fs[|fs| - 1])} by {
        forall name | name in OtherNames(fs, id)
          ensures name in OtherNames(init, id) + {EffectiveName(fs[|fs| - 1])}
        {
          var k :| 0 <= k < |fs| && fs[k].id != id && EffectiveName(fs[k]) == name;
          if k < |fs| - 1 { assert init[k] == fs[k]; }
        }
      }
      SubsetSize(OtherNames(fs, id), OtherNames(init, id) + {EffectiveName(fs[|fs| - 1])});
    }
  }

  lemma SubsetSize<T>(a: set<T>, b: set<T>)
    requires a <= b
    ensures |a| <= |b|
  {
    assert b == a + (b - a);
  }

  /** The names `base (1)` … `base (c)`. */
  function NumberedNames(base: string, c: nat): (names: set<string>)
    ensures forall n :: 1 <= n <= c ==> Numbered(base, n) in names
    ensures base !in names
  {
    if c == 0 then {} else NumberedNames(base, c - 1) + {Numbered(base, c)}
  }

  lemma {:induction false} NumberedNamesSize(base: string, c: nat)
    ensures |NumberedNames(base, c)| == c
    decreases c
  {
    if c > 0 {
      NumberedNamesSize(base, c - 1);
      if Numbered(base, c) in NumberedNames(base, c - 1) {
        var n := NumberedFrom(base, c - 1, Numbered(base, c));
        NumberedInjective(base, n, c);
      }
    }
  }

  /** Every member of `NumberedNames(base, c)` carries a counter in 1..c. */
  lemma {:induction false} NumberedFrom(base: string, c: nat, name: string) returns (n: nat)
    requires name in NumberedNames(base, c)
    ensures 1 <= n <= c && name == Numbered(base, n)
    decreases c
  {
    if name == Numbered(base, c) {
      n := c;
    } else {
      n := NumberedFrom(base, c - 1, name);
    }
  }

  /** The base name and `base (1)` … `base (c)` all clashing takes c + 1
      distinct names of other entries, so c < |fs|: the counter loop stops. */
  lemma ClashBound(fs: seq<Filament>, id: string, base: string, c: nat)
    requires IsDuplicate(fs, id, base)
    requires forall n :: 1 <= n <= c ==> IsDuplicate(fs, id, Numbered(base, n))
    ensures c + 1 <= |fs|
  {
    var clashes := NumberedNames(base, c) + {base};
    assert clashes <= OtherNames(fs, id) by {
      forall name | name in NumberedNames(base, c) ensures IsDuplicate(fs, id, name) {
        var n := NumberedFrom(base, c, name);
      }
    }
    NumberedNamesSize(base, c);
    SubsetSize(clashes, OtherNames(fs, id));
    OtherNamesBound(fs, id);
  }

  /** The naming loop of `handleSaveFilament`: the base name if no other entry
      shows it, else `base (n)` for the least n that no other entry shows. */
  method ResolveName(fs: seq<Filament>, id: string, name: string) returns (finalName: string)
    ensures !IsDuplicate(fs, id, finalName)
    ensures !IsDuplicate(fs, id, BaseName(name)) ==> finalName == BaseName(name)
    ensures IsDuplicate(fs, id, BaseName(name)) ==>
      exists n :: 1 <= n <= |fs| && finalName == Numbered(BaseName(name), n)
        && forall m :: 1 <= m < n ==> IsDuplicate(fs, id, Numbered(BaseName(name), m))
  {
    var baseName := BaseName(name);
    finalName := baseName;
    if IsDuplicate(fs, id, finalName) {
      var counter := 1;
      ClashBound(fs, id, baseName, 0);
      while IsDuplicate(fs, id, Numbered(baseName, counter))
        invariant 1 <= counter < |fs| + 1
        invariant forall m :: 1 <= m < counter ==> IsDuplicate(fs, id, Numbered(baseName, m))
        decreases |fs| - counter
      {
        ClashBound(fs, id, baseName, counter);
        counter := counter + 1;
      }
      finalName := Numbered(baseName, counter);
      ClashBound(fs, id, baseName, counter - 1);
      assert 1 <= counter <= |fs| && finalName == Numbered(baseName, counter);
    }
  }

  // ---------------------------------------------------------------------------
  // Save, deduct
  // ---------------------------------------------------------------------------

  /** The list update of `handleSaveFilament`: a new id goes to the front, a
      known id is replaced where it stands. Either way the saved record is what
      `find` returns for its id afterwards. */
  function Upserted(fs: seq<Filament>, g: Filament): (r: seq<Filament>)
    ensures |r| == if Find(fs, g.id).None? then |fs| + 1 else |fs|
    ensures Find(r, g.id) == Some(g)
  {
    if Find(fs, g.id).None? then [g] + fs else Replaced(fs, g)
  }

  /** Saving touches no entry with another id: they stay, in order. */
  lemma UpsertedKeepsOthers(fs: seq<Filament>, g: Filament)
    ensures Deleted(Upserted(fs, g), g.id) == Deleted(fs, g.id)
    ensures Find(fs, g.id).None? ==> Upserted(fs, g) == [g] + fs
  {
    if Find(fs, g.id).None? {
      assert ([g] + fs)[1..] == fs;
    } else {
      ReplacedKeepsOthers(fs, g);
    }
  }

  lemma UpsertedKeepsUniqueIds(fs: seq<Filament>, g: Filament)
    requires UniqueIds(fs)
    ensures UniqueIds(Upserted(fs, g))
  {
    if Find(fs, g.id).None? {
      var r := [g] + fs;
      forall i, j | 0 <= i < j < |r| ensures r[i].id != r[j].id {
        if i == 0 { assert r[j] == fs[j - 1]; }
      }
    }
  }

  /** After a save under a name no other entry shows, the saved entry's name
      differs from the name of every entry with another id. */
  lemma UpsertedNameDistinct(fs: seq<Filament>, g: Filament)
    requires g.name != [] && !IsDuplicate(fs, g.id, g.name)
    ensures forall k :: 0 <= k < |Upserted(fs, g)| && Upserted(fs, g)[k].id != g.id ==>
      EffectiveName(Upserted(fs, g)[k]) != EffectiveName(g)
  {
    var r := Upserted(fs, g);
    forall k | 0 <= k < |r| && r[k].id != g.id ensures EffectiveName(r[k]) != EffectiveName(g) {
      if Find(fs, g.id).None? {
        assert r[k] == fs[k - 1];
      } else {
        assert r[k] == fs[k];
      }
    }
  }

  /** The list update of `handleDeductConfirm`: with a non-empty selected id
      that is present, the first entry with that id loses `amount` grams and is
      stamped `now`, and every entry with that id is replaced by the result;
      otherwise nothing changes. */
  function Deducted(fs: seq<Filament>, selected: Option<string>, amount: real, now: string): (r: seq<Filament>)
    ensures |r| == |fs|
    ensures forall k :: 0 <= k < |fs| ==> r[k].id == fs[k].id
    ensures forall k :: 0 <= k < |fs| && (selected.None? || fs[k].id != selected.value) ==> r[k] == fs[k]
    ensures selected.None? || selected.value == "" || Find(fs, selected.value).None? ==> r == fs
  {
    match selected
    case None => fs
    case Some(id) =>
      if id == "" then fs
      else match Find(fs, id)
        case None => fs
        case Some(t) => Replaced(fs, t.(currentWeight := t.currentWeight - amount, lastUsed := Some(now)))
  }

  /** Every entry with the selected id becomes the updated copy of the first
      one: it holds the first one's weight less `amount`. */
  lemma DeductedAllWithId(fs: seq<Filament>, id: string, amount: real, now: string)
    requires id != "" && Find(fs, id).Some?
    ensures var r := Deducted(fs, Some(id), amount, now);
      forall k :: 0 <= k < |r| && r[k].id == id ==>
        r[k] == Find(fs, id).value.(currentWeight := Find(fs, id).value.currentWeight - amount, lastUsed := Some(now))
  {
  }

  lemma DeductedIsReplaced(fs: seq<Filament>, id: string, amount: real, now: string)
    requires id != "" && Find(fs, id).Some?
    ensures var t := Find(fs, id).value;
      Deducted(fs, Some(id), amount, now) == Replaced(fs, t.(currentWeight := t.currentWeight - amount, lastUsed := Some(now)))
  {
    hide Replaced, Find;
  }

  /** With unique ids the selected entry is the one changed, by exactly
      `amount` grams and the new stamp, and the total drops by `amount`. */
  lemma DeductedSelected(fs: seq<Filament>, i: int, amount: real, now: string)
    requires UniqueIds(fs) && 0 <= i < |fs| && fs[i].id != ""
    ensures var r := Deducted(fs, Some(fs[i].id), amount, now);
      && r[i] == fs[i].(currentWeight := fs[i].currentWeight - amount, lastUsed := Some(now))
      && TotalStock(r) == TotalStock(fs) - amount
      && UniqueIds(r)
  {
    hide *;
    FindUnique(fs, i);
    DeductedIsReplaced(fs, fs[i].id, amount, now);
    var g := fs[i].(currentWeight := fs[i].currentWeight - amount, lastUsed := Some(now));
    ReplacedTotal(fs, g, i);
    ReplacedKeepsUniqueIds(fs, g);
  }

  /** A deduction the dialog accepted for the selected spool leaves that spool
      with a non-negative weight when it had one. */
  lemma DeductAfterCheck(fs: seq<Filament>, i: int, amountText: string, now: string)
    requires UniqueIds(fs) && 0 <= i < |fs| && fs[i].id != "" && fs[i].currentWeight >= 0.0
    requires DeductModal.Check(amountText, fs[i].currentWeight).Accept?
    ensures var r := Deducted(fs, Some(fs[i].id), DeductModal.Check(amountText, fs[i].currentWeight).grams, now);
      0.0 <= r[i].currentWeight < fs[i].currentWeight
  {
    DeductedSelected(fs, i, DeductModal.Check(amountText, fs[i].currentWeight).grams, now);
  }

  // ---------------------------------------------------------------------------
  // The list state
  // ---------------------------------------------------------------------------

  /** The screen's `filaments` list and the spool picked for a deduction. */
  class Inventory {
    var filaments: seq<Filament>
    var selectedFilamentId: Option<string>

    constructor ()
      ensures filaments == [] && selectedFilamentId == None
    {
      filaments := [];
      selectedFilamentId := None;
    }

    /** `handleDelete` once confirmed. */
    method Delete(id: string)
      modifies this
      ensures filaments == Deleted(old(filaments), id)
      ensures selectedFilamentId == old(selectedFilamentId)
      ensures UniqueIds(old(filaments)) ==> UniqueIds(filaments)
    {
      if UniqueIds(filaments) {
        DeletedKeepsUniqueIds(filaments, id);
      }
      filaments := Deleted(filaments, id);
    }

    /** `handleSaveFilament`: resolve a unique name, then insert or replace.
        Returns the record handed to the store. */
    method Save(f: Filament) returns (saved: Filament)
      modifies this
      ensures saved == f.(name := saved.name)
      ensures !IsDuplicate(old(filaments), f.id, saved.name)
      ensures !IsDuplicate(old(filaments), f.id, BaseName(f.name)) ==> saved.name == BaseName(f.name)
      ensures IsDuplicate(old(filaments), f.id, BaseName(f.name)) ==>
        exists n :: 1 <= n <= |old(filaments)| && saved.name == Numbered(BaseName(f.name), n)
          && forall m :: 1 <= m < n ==> IsDuplicate(old(filaments), f.id, Numbered(BaseName(f.name), m))
      ensures filaments == Upserted(old(filaments), saved)
      ensures selectedFilamentId == old(selectedFilamentId)
      ensures UniqueIds(old(filaments)) ==> UniqueIds(filaments)
    {
      var name := ResolveName(filaments, f.id, f.name);
      saved := f.(name := name);
      if UniqueIds(filaments) {
        UpsertedKeepsUniqueIds(filaments, saved);
      }
      filaments := Upserted(filaments, saved);
    }

    /** `openDeductModal`: remember the spool. */
    method Select(id: string)
      modifies this
      ensures selectedFilamentId == Some(id) && filaments == old(filaments)
    {
      selectedFilamentId := Some(id);
    }

    /** `handleDeductConfirm(amount)` with `now` the current ISO time. */
    method DeductConfirm(amount: real, now: string)
      modifies this
      ensures filaments == Deducted(old(filaments), selectedFilamentId, amount, now)
      ensures selectedFilamentId == old(selectedFilamentId)
    {
      filaments := Deducted(filaments, selectedFilamentId, amount, now);
    }

    /** The confirm button of the dialog opened on the selected spool: the
        dialog checks the typed amount against that spool and, when it
        accepts, the list is updated: the spool, if it had a non-negative
        weight, keeps one and loses some. */
    method ConfirmFromModal(modal: DeductModal.Modal, now: string) returns (confirmed: Option<real>)
      requires selectedFilamentId.Some? && selectedFilamentId.value != ""
      requires Find(filaments, selectedFilamentId.value).Some?
      modifies this, modal
      ensures var t := Find(old(filaments), old(selectedFilamentId).value).value;
        confirmed == (match DeductModal.Check(old(modal.amount), t.currentWeight)
                      case Accept(g) => Some(g)
                      case Reject(_) => None)
      ensures var t := Find(old(filaments), old(selectedFilamentId).value).value;
        match DeductModal.Check(old(modal.amount), t.currentWeight)
        case Reject(e) => modal.error == Some(e) && modal.amount == old(modal.amount)
        case Accept(_) => modal.error == None && modal.amount == ""
      ensures selectedFilamentId == old(selectedFilamentId)
      ensures confirmed.None? ==> filaments == old(filaments)
      ensures confirmed.Some? ==> filaments == Deducted(old(filaments), old(selectedFilamentId), confirmed.value, now)
      ensures var t := Find(old(filaments), old(selectedFilamentId).value).value;
        confirmed.Some? && t.currentWeight >= 0.0 ==>
          forall k :: 0 <= k < |filaments| && filaments[k].id == t.id ==> 0.0 <= filaments[k].currentWeight < t.currentWeight
    {
      var t := Find(filaments, selectedFilamentId.value).value;
      confirmed := modal.Confirm(t.currentWeight);
      if confirmed.Some? {
        assert confirmed.value <= t.currentWeight;
        DeductedAllWithId(filaments, t.id, confirmed.value, now);
        DeductConfirm(confirmed.value, now);
      }
    }
  }
}
