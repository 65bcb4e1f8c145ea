/**
 * The colour lookup `this.color = d3Scale.scaleOrdinal(schemeCategory10)`.
 * An ordinal scale with an implicit domain remembers every key it is asked
 * about, in first-seen order, and answers `range[index % range.length]`.
 */
module Colours {

  /** d3's `schemeCategory10`. */
  const PALETTE: seq<string> := [
    "#1f77b4", "#ff7f0e", "#2ca02c", "#d62728", "#9467bd",
    "#8c564b", "#e377c2", "#7f7f7f", "#bcbd22", "#17becf"
  ]

  ghost predicate NoDuplicates(d: seq<string>) {
    forall a, b :: 0 <= a < b < |d| ==> d[a] != d[b]
  }

  /** Position of the first occurrence of `key` in the scale's domain. */
  function IndexOf(d: seq<string>, key: string): (r: nat)
    requires key in d
    ensures r < |d| && d[r] == key
    ensures forall j :: 0 <= j < r ==> d[j] != key
  {
    if d[0] == key then 0 else 1 + IndexOf(d[1..], key)
  }

  /** The domain after the scale has been asked about `key`. */
  function Extend(d: seq<string>, key: string): (r: seq<string>)
    ensures key in r
    ensures d <= r
    ensures key in d ==> r == d
    ensures key !in d ==> r == d + [key]
  {
    if key in d then d else d + [key]
  }

  /** The palette entry of a key the scale already knows. */
  function ColourAt(d: seq<string>, key: string): (c: string)
    requires key in d
    ensures c in PALETTE
  {
    PALETTE[IndexOf(d, key) % |PALETTE|]
  }

  lemma PaletteDistinct()
    ensures forall a, b :: 0 <= a < b < |PALETTE| ==> PALETTE[a] != PALETTE[b]
  {
    forall a, b | 0 <= a < b < |PALETTE|
      ensures PALETTE[a] != PALETTE[b]
    {
      assert PALETTE[a][1] != PALETTE[b][1] || PALETTE[a][2] != PALETTE[b][2] || PALETTE[a][3] != PALETTE[b][3];
    }
  }

  /** Extending the domain never moves a key that is already in it. */
  lemma {:induction false} IndexStable(d: seq<string>, e: seq<string>, key: string)
    requires key in d && d <= e
    ensures IndexOf(e, key) == IndexOf(d, key)
  {
    var r := IndexOf(d, key);
    assert e[r] == key;
  }

  /** The same key keeps its colour across frames and sessions, however many keys come later. */
  lemma ColourStable(d: seq<string>, e: seq<string>, key: string)
    requires key in d && d <= e
    ensures key in e && ColourAt(e, key) == ColourAt(d, key)
  {
    assert e[IndexOf(d, key)] == key;
    IndexStable(d, e, key);
  }

  lemma ExtendKeepsNoDuplicates(d: seq<string>, key: string)
    requires NoDuplicates(d)
    ensures NoDuplicates(Extend(d, key))
  {
  }

  /** In a duplicate-free domain the key at position `j` has palette entry `j % 10`. */
  lemma ColourOfPosition(d: seq<string>, j: nat)
    requires NoDuplicates(d) && j < |d|
    ensures ColourAt(d, d[j]) == PALETTE[j % 10]
  {
  }

  /** Distinct keys never share a colour until the ten palette entries are used up. */
  lemma DistinctUntilExhausted(d: seq<string>, a: string, b: string)
    requires NoDuplicates(d) && |d| <= |PALETTE|
    requires a in d && b in d && a != b
    ensures ColourAt(d, a) != ColourAt(d, b)
  {
    PaletteDistinct();
    var ia, ib := IndexOf(d, a), IndexOf(d, b);
    assert ia != ib && ia < 10 && ib < 10;
    assert ia % 10 == ia && ib % 10 == ib;
  }

  /** The eleventh distinct key reuses the first key's colour: the palette cycles. */
  lemma PaletteCycles(d: seq<string>)
    requires NoDuplicates(d) && |d| > |PALETTE|
    ensures d[10] != d[0] && ColourAt(d, d[10]) == ColourAt(d, d[0])
  {
    ColourOfPosition(d, 10);
    ColourOfPosition(d, 0);
    assert 10 % 10 == 0 % 10;
  }

  /** The scale object; `domain` is its memo of keys seen so far. */
  class ColourScale {
    var domain: seq<string>

    ghost predicate Valid()
      reads this
    {
      NoDuplicates(domain)
    }

    constructor ()
      ensures Valid() && domain == []
    {
      domain := [];
    }

    /** `color(key)`: look the key up, adding it to the domain when new. */
    method Apply(key: string) returns (c: string)
      requires Valid()
      modifies this
      ensures Valid()
      ensures domain == Extend(old(domain), key)
      ensures c == ColourAt(domain, key)
    {
      if key !in domain {
        domain := domain + [key];
      }
      var k := 0;
      while domain[k] != key
        invariant 0 <= k <= IndexOf(domain, key)
        decreases IndexOf(domain, key) - k
      {
        k := k + 1;
      }
      c := PALETTE[k % |PALETTE|];
    }
  }
}
