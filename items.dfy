/**
 * The items of the Gilded Rose: the category an item's name selects, the
 * per-category rule that advances it by one day, and the report line it
 * prints as.
 */
module Items {
  import opened Primitives
  import opened Decimal

  const BRIE_NAME: string := "Aged Brie"
  const BACKSTAGE_NAME: string := "Backstage passes to a TAFKAL80ETC concert"
  const SULFURAS_NAME: string := "Sulfuras, Hand of Ragnaros"

  /** Quality never rises past this through a tick. */
  const MAX_QUALITY: u32 := 50

  /** The four item variants; only an ordinary item keeps its own name. */
  datatype Kind = Brie | Backstage | Sulfuras | Ordinary(name: string)

  predicate IsSpecialName(s: string)
  {
    s == BRIE_NAME || s == BACKSTAGE_NAME || s == SULFURAS_NAME
  }

  /** A kind that classification can produce: no ordinary item carries a special name. */
  predicate WellFormed(k: Kind)
  {
    k.Ordinary? ==> !IsSpecialName(k.name)
  }

  /** `Item::new`'s choice of variant: exact, case-sensitive match, ordinary otherwise. */
  function Classify(name: string): (k: Kind)
    ensures WellFormed(k)
    ensures k == Brie <==> name == BRIE_NAME
    ensures k == Backstage <==> name == BACKSTAGE_NAME
    ensures k == Sulfuras <==> name == SULFURAS_NAME
    ensures k == Ordinary(name) <==> !IsSpecialName(name)
  {
    if name == BRIE_NAME then Brie
    else if name == BACKSTAGE_NAME then Backstage
    else if name == SULFURAS_NAME then Sulfuras
    else Ordinary(name)
  }

  /** `Tick::name`: a fixed literal for the special variants. */
  function KindName(k: Kind): (s: string)
    ensures k.Ordinary? ==> s == k.name
    ensures !k.Ordinary? ==> IsSpecialName(s)
    ensures WellFormed(k) ==> (IsSpecialName(s) <==> !k.Ordinary?)
  {
    match k
    case Brie => BRIE_NAME
    case Backstage => BACKSTAGE_NAME
    case Sulfuras => SULFURAS_NAME
    case Ordinary(n) => n
  }

  /** Every name survives classification: `Item::new(s).name() == s`. */
  lemma NameOfClassify(s: string)
    ensures KindName(Classify(s)) == s
  {
  }

  /** Classification recovers every kind it can produce from that kind's name. */
  lemma ClassifyOfName(k: Kind)
    requires WellFormed(k)
    ensures Classify(KindName(k)) == k
  {
  }

  /** The two counters every variant struct holds. */
  datatype Counters = Counters(days: i32, quality: u32)

  /** The value of an item: its variant and its two counters. */
  datatype Entry = Entry(kind: Kind, days: i32, quality: u32)

  /** The value `Item::new(name, days, quality)` builds. */
  function NewEntry(name: string, days: i32, quality: u32): Entry
  {
    Entry(Classify(name), days, quality)
  }

  /** How much a day's tick moves quality, given the day count after the decrement. */
  function DailyStep(daysAfter: i32): u32
  {
    if daysAfter < 0 then 2 else 1
  }

  /**
   * Net effect of a day on an ordinary item: one day less, and quality
   * down by one (by two once the sell date has passed), stopping at zero.
   */
  function OrdinaryRule(days: i32, quality: u32): (r: Counters)
    requires days > I32_MIN
    ensures r.days as int == days as int - 1
    ensures r.quality <= quality
    ensures quality as int - r.quality as int <= DailyStep(r.days) as int
    ensures r.quality == 0 || quality as int - r.quality as int == DailyStep(r.days) as int
  {
    var d := days - 1;
    Counters(d, SaturatingSub(quality, DailyStep(d)))
  }

  /**
   * Net effect of a day on Aged Brie: one day less; quality at the cap
   * stays; below it, up by one (by two once the sell date has passed),
   * stopping at the cap. Quality already above the cap is not clamped and
   * goes on rising by one.
   */
  function BrieRule(days: i32, quality: u32): (r: Counters)
    requires days > I32_MIN && quality < U32_MAX
    ensures r.days as int == days as int - 1
    ensures quality <= MAX_QUALITY ==> quality <= r.quality <= MAX_QUALITY
    ensures quality < MAX_QUALITY ==> r.quality > quality
    ensures quality <= MAX_QUALITY ==> r.quality as int - quality as int <= DailyStep(r.days) as int
    ensures quality <= MAX_QUALITY ==>
              r.quality == MAX_QUALITY || r.quality as int - quality as int == DailyStep(r.days) as int
    ensures quality > MAX_QUALITY ==> r.quality as int == quality as int + 1
  {
    var d := days - 1;
    if quality == MAX_QUALITY then Counters(d, quality)
    else if quality > MAX_QUALITY then Counters(d, quality + 1)
    else Counters(d, Min(MAX_QUALITY, quality + DailyStep(d)))
  }

  /** The extra rise of a backstage pass: one more inside ten days, one more again inside five. */
  function BackstageBonus(daysAfter: i32): u32
  {
    (if daysAfter < 10 then 1 else 0) + (if daysAfter < 5 then 1 else 0)
  }

  /**
   * Net effect of a day on a backstage pass: one day less; worthless once
   * the concert has passed; before that, up by one, two or three by how
   * near the concert is, stopping at the cap, and never down.
   */
  function BackstageRule(days: i32, quality: u32): (r: Counters)
    requires days > I32_MIN
    ensures r.days as int == days as int - 1
    ensures r.quality == 0 <==> r.days < 0
    ensures r.days >= 0 ==> quality <= r.quality
    ensures quality <= MAX_QUALITY ==> r.quality <= MAX_QUALITY
    ensures r.days >= 0 ==> r.quality as int - quality as int <= 1 + BackstageBonus(r.days) as int
    ensures r.days >= 0 && quality <= MAX_QUALITY ==>
              r.quality == MAX_QUALITY || r.quality as int - quality as int == 1 + BackstageBonus(r.days) as int
    ensures r.days >= 0 && quality >= MAX_QUALITY ==> r.quality == quality
  {
    var d := days - 1;
    if d < 0 then Counters(d, 0)
    else if quality >= MAX_QUALITY then Counters(d, quality)
    else Counters(d, Min(MAX_QUALITY, quality + 1 + BackstageBonus(d)))
  }

  /** What a tick of `e` demands so that Rust's checked arithmetic does not overflow. */
  predicate CanTick(e: Entry)
  {
    match e.kind
    case Sulfuras => true
    case Brie => e.days > I32_MIN && e.quality < U32_MAX
    case _ => e.days > I32_MIN
  }

  /** One day for one item, by its variant. */
  function Ticked(e: Entry): (r: Entry)
    requires CanTick(e)
    ensures r.kind == e.kind
    ensures e.kind.Sulfuras? ==> r == e
    ensures !e.kind.Sulfuras? ==> r.days as int == e.days as int - 1
    ensures !e.kind.Sulfuras? && e.quality <= MAX_QUALITY ==> r.quality <= MAX_QUALITY
  {
    var c :=
      match e.kind
      case Sulfuras => Counters(e.days, e.quality)
      case Brie => BrieRule(e.days, e.quality)
      case Backstage => BackstageRule(e.days, e.quality)
      case Ordinary(_) => OrdinaryRule(e.days, e.quality);
    Entry(e.kind, c.days, c.quality)
  }

  /** `n` ticks can run without overflow. */
  predicate CanTickN(e: Entry, n: nat)
    decreases n
  {
    n == 0 || (CanTick(e) && CanTickN(Ticked(e), n - 1))
  }

  /** The item after `n` days. */
  function TickN(e: Entry, n: nat): Entry
    requires CanTickN(e, n)
    decreases n
  {
    if n == 0 then e else TickN(Ticked(e), n - 1)
  }

  /** Sulfuras never changes, however many days pass. */
  lemma {:induction false} SulfurasIsFixed(e: Entry, n: nat)
    requires e.kind.Sulfuras?
    ensures CanTickN(e, n) && TickN(e, n) == e
  {
    if n > 0 {
      SulfurasIsFixed(e, n - 1);
    }
  }

  /**
   * An item other than Sulfuras that starts with quality in [0, 50] and
   * enough days above `i32::MIN` can be ticked `n` times; it then has
   * exactly `n` days fewer, the same kind, and quality still in [0, 50].
   */
  lemma {:induction false} TicksKeepQualityInRange(e: Entry, n: nat)
    requires !e.kind.Sulfuras?
    requires e.quality <= MAX_QUALITY
    requires e.days as int - n >= I32_MIN as int
    ensures CanTickN(e, n)
    ensures TickN(e, n).kind == e.kind
    ensures TickN(e, n).days as int == e.days as int - n
    ensures TickN(e, n).quality <= MAX_QUALITY
    decreases n
  {
    if n > 0 {
      assert CanTick(e);
      TicksKeepQualityInRange(Ticked(e), n - 1);
    }
  }

  /** `Item::ticked_once`: a fresh item advanced by one day. */
  method TickedOnce(name: string, days: i32, quality: u32) returns (e: Entry)
    requires CanTick(NewEntry(name, days, quality))
    ensures e == Ticked(NewEntry(name, days, quality))
  {
    var item := new Item(name, days, quality);
    item.Tick();
    e := item.Snapshot();
  }

  /** The before/after pairs of the unit tests for the four variants. */
  lemma UnitTestExpectations()
    ensures Ticked(NewEntry("Ordinary", 10, 5)) == NewEntry("Ordinary", 9, 4)
    ensures Ticked(NewEntry("Ordinary", 0, 5)) == NewEntry("Ordinary", -1, 3)
    ensures Ticked(NewEntry("Ordinary", -10, 5)) == NewEntry("Ordinary", -11, 3)
    ensures Ticked(NewEntry("Ordinary", 10, 0)) == NewEntry("Ordinary", 9, 0)
    ensures Ticked(NewEntry(BRIE_NAME, 10, 5)) == NewEntry(BRIE_NAME, 9, 6)
    ensures Ticked(NewEntry(BRIE_NAME, 10, 50)) == NewEntry(BRIE_NAME, 9, 50)
    ensures Ticked(NewEntry(BRIE_NAME, 0, 5)) == NewEntry(BRIE_NAME, -1, 7)
    ensures Ticked(NewEntry(BRIE_NAME, 0, 49)) == NewEntry(BRIE_NAME, -1, 50)
    ensures Ticked(NewEntry(BRIE_NAME, 0, 50)) == NewEntry(BRIE_NAME, -1, 50)
    ensures Ticked(NewEntry(BRIE_NAME, -10, 5)) == NewEntry(BRIE_NAME, -11, 7)
    ensures Ticked(NewEntry(BRIE_NAME, -10, 50)) == NewEntry(BRIE_NAME, -11, 50)
    ensures Ticked(NewEntry(SULFURAS_NAME, 10, 5)) == NewEntry(SULFURAS_NAME, 10, 5)
    ensures Ticked(NewEntry(SULFURAS_NAME, 0, 5)) == NewEntry(SULFURAS_NAME, 0, 5)
    ensures Ticked(NewEntry(SULFURAS_NAME, -10, 5)) == NewEntry(SULFURAS_NAME, -10, 5)
    ensures Ticked(NewEntry(BACKSTAGE_NAME, 11, 5)) == NewEntry(BACKSTAGE_NAME, 10, 6)
    ensures Ticked(NewEntry(BACKSTAGE_NAME, 10, 5)) == NewEntry(BACKSTAGE_NAME, 9, 7)
    ensures Ticked(NewEntry(BACKSTAGE_NAME, 10, 50)) == NewEntry(BACKSTAGE_NAME, 9, 50)
    ensures Ticked(NewEntry(BACKSTAGE_NAME, 6, 5)) == NewEntry(BACKSTAGE_NAME, 5, 7)
    ensures Ticked(NewEntry(BACKSTAGE_NAME, 6, 50)) == NewEntry(BACKSTAGE_NAME, 5, 50)
    ensures Ticked(NewEntry(BACKSTAGE_NAME, 5, 5)) == NewEntry(BACKSTAGE_NAME, 4, 8)
    ensures Ticked(NewEntry(BACKSTAGE_NAME, 5, 50)) == NewEntry(BACKSTAGE_NAME, 4, 50)
    ensures Ticked(NewEntry(BACKSTAGE_NAME, 1, 5)) == NewEntry(BACKSTAGE_NAME, 0, 8)
    ensures Ticked(NewEntry(BACKSTAGE_NAME, 1, 50)) == NewEntry(BACKSTAGE_NAME, 0, 50)
    ensures Ticked(NewEntry(BACKSTAGE_NAME, 0, 5)) == NewEntry(BACKSTAGE_NAME, -1, 0)
    ensures Ticked(NewEntry(BACKSTAGE_NAME, -10, 50)) == NewEntry(BACKSTAGE_NAME, -11, 0)
  {
  }

  /**
   * Splits `s` at its last ", ": the text before it and the text after.
   * None when `s` holds no ", ".
   */
  function SplitLast(s: string): Option<(string, string)>
    decreases |s|
  {
    if |s| < 2 then None
    else if s[|s| - 2..] == ", " then Some((s[..|s| - 2], ""))
    else
      match SplitLast(s[..|s| - 1])
      case None => None
      case Some((before, after)) => Some((before, after + [s[|s| - 1]]))
  }

  /** Reads a report line back into name, days and quality, splitting from the right. */
  function ParseLine(s: string): Option<(string, int, int)>
  {
    match SplitLast(s)
    case None => None
    case Some((rest, q)) =>
      match SplitLast(rest)
      case None => None
      case Some((name, d)) =>
        match (ParseInt(d), ParseNat(q))
        case (Some(days), Some(quality)) => Some((name, days, quality as int))
        case _ => None
  }

  /** A separator followed by text with no comma is the last separator. */
  lemma {:induction false} SplitLastAt(before: string, after: string)
    requires ',' !in after
    ensures SplitLast(before + ", " + after) == Some((before, after))
  {
    var s := before + ", " + after;
    if after == [] {
      assert s[|s| - 2..] == ", ";
      assert s[..|s| - 2] == before;
    } else {
      var n := |after|;
      var front, last := after[..n - 1], after[n - 1];
      assert s[|s| - 2] != ',' by {
        if n == 1 {
          assert s[|s| - 2] == ' ';
        } else {
          assert s[|s| - 2] == after[n - 2];
        }
      }
      assert s[|s| - 2..] != ", ";
      assert s[..|s| - 1] == before + ", " + front by {
        assert after == front + [last];
      }
      assert s[|s| - 1] == last;
      SplitLastAt(before, front);
      assert SplitLast(s) == Some((before, front + [last]));
      assert front + [last] == after;
    }
  }

  /**
   * `Display for Item`: name, days and quality separated by ", ". The line
   * gives back the item's name, days and quality, whatever the name holds
   * (an ordinary name may itself contain ", ").
   */
  function Line(e: Entry): (s: string)
    ensures ParseLine(s) == Some((KindName(e.kind), e.days as int, e.quality as int))
  {
    var name, d, q := KindName(e.kind), IntToString(e.days as int), IntToString(e.quality as int);
    SplitLastAt(name + ", " + d, q);
    SplitLastAt(name, d);
    ParseIntToString(e.days as int);
    ParseIntToString(e.quality as int);
    ParseNatToString(e.quality as int);
    (name + ", " + d) + ", " + q
  }

  /** Two items that classification can produce print the same line only if they are equal. */
  lemma LineDeterminesItem(e1: Entry, e2: Entry)
    requires WellFormed(e1.kind) && WellFormed(e2.kind)
    requires Line(e1) == Line(e2)
    ensures e1 == e2
  {
    ClassifyOfName(e1.kind);
    ClassifyOfName(e2.kind);
  }

  /** One item of the shop: its variant is fixed, its counters change in place. */
  class Item {
    const kind: Kind
    var days: i32
    var quality: u32

    /** `Item::new`. */
    constructor (name: string, days: i32, quality: u32)
      ensures Snapshot() == NewEntry(name, days, quality)
      ensures Name() == name
    {
      this.kind := Classify(name);
      this.days := days;
      this.quality := quality;
    }

    /** `Tick::name`. */
    function Name(): string
    {
      KindName(kind)
    }

    function Snapshot(): Entry
      reads this
    {
      Entry(kind, days, quality)
    }

    /** `Tick::tick` of the item's variant, step by step as each variant writes it. */
    method Tick()
      requires CanTick(Snapshot())
      modifies this
      ensures Snapshot() == Ticked(old(Snapshot()))
    {
      match kind
      case Brie =>
        days := days - 1;
        if quality == 50 {
          return;
        }
        quality := quality + 1;
        if days < 0 && quality < 50 {
          quality := quality + 1;
        }
      case Backstage =>
        days := days - 1;
        if days < 0 {
          quality := 0;
          return;
        }
        if quality < 50 {
          quality := quality + 1;
        }
        if days < 10 && quality < 50 {
          quality := quality + 1;
        }
        if days < 5 && quality < 50 {
          quality := quality + 1;
        }
      case Sulfuras =>
      case Ordinary(_) =>
        days := days - 1;
        quality := SaturatingSub(quality, 1);
        if days < 0 {
          quality := SaturatingSub(quality, 1);
        }
    }
  }
}
