/**
 * The tariff calculator of the pricing section: a fixed table of seven
 * zones, the selected zone (by id, with a fallback to the first entry),
 * an hour counter clamped to [1, 24], the total price, the free-slot
 * count and its three availability bands.
 */
module Pricing {
  import opened Wrappers
  import opened Arithmetic

  /** One price entry of a zone; the calculator only ever reads the first one. */
  datatype Price = Price(perHour: nat, caption: string)

  /** A row of the tariff table. The slot counts are plain numbers: the table
      itself, not the type, is what keeps `occupiedSlots <= totalSlots`. */
  datatype TariffZone = TariffZone(
    id: string,
    name: string,
    description: string,
    totalSlots: int,
    occupiedSlots: int,
    prices: seq<Price>)

  /** What the calculator needs of a row to compute sane values. */
  predicate WellFormed(z: TariffZone)
  {
    z.totalSlots > 0 && 0 <= z.occupiedSlots <= z.totalSlots && |z.prices| > 0
  }

  /** The static tariff table, in display order. */
  function Tariffs(): (zs: seq<TariffZone>)
    ensures |zs| == 7
    ensures forall i :: 0 <= i < |zs| ==> WellFormed(zs[i])
    ensures forall i, j :: 0 <= i < j < |zs| ==> zs[i].id != zs[j].id
    ensures zs[0].id == "vr" && FreeSlots(zs[0]) == 7 && zs[0].prices[0].perHour == 800
    ensures zs[6].id == "vip-2" && FreeSlots(zs[6]) == 0
  {
    [
      TariffZone("vr", "VR Зона",
        "Oculus Quest 3 - виртуальная реальность нового поколения",
        10, 3, [Price(800, "Стандарт")]),
      TariffZone("ps5", "PS5 Зона",
        "15 консолей PlayStation 5 с эксклюзивными играми",
        15, 8, [Price(500, "Стандарт")]),
      TariffZone("pc-basic", "ПК Зона - Базовый",
        "RTX 3060 Ti, i5-12400F, 16GB RAM, 144Hz",
        20, 12, [Price(300, "Базовый")]),
      TariffZone("pc-pro", "ПК Зона - Про",
        "RTX 4070 Ti, i7-13700K, 32GB RAM, 240Hz",
        25, 18, [Price(450, "Про")]),
      TariffZone("pc-ultra", "ПК Зона - Ультра",
        "RTX 4090 Ti, i9-14900K, 64GB RAM, 240Hz, 4K",
        15, 9, [Price(700, "Ультра")]),
      TariffZone("vip-1", "VIP Комната #1",
        "5 ПК RTX 4090 Ti в приватной комнате с баром",
        5, 0, [Price(1000, "За комнату")]),
      TariffZone("vip-2", "VIP Комната #2",
        "5 ПК RTX 4090 Ti в приватной комнате с караоке",
        5, 5, [Price(1000, "За комнату")])
    ]
  }

  // ---------------------------------------------------------------------
  // Lookup of the selected zone
  // ---------------------------------------------------------------------

  /** Position of the first row whose id is `id`, as `Array.prototype.find` scans. */
  function FindIndex(zs: seq<TariffZone>, id: string): (r: Option<nat>)
    ensures r.Some? ==> r.value < |zs| && zs[r.value].id == id
    ensures r.Some? ==> forall j :: 0 <= j < r.value ==> zs[j].id != id
    ensures r.None? <==> forall j :: 0 <= j < |zs| ==> zs[j].id != id
  {
    if |zs| == 0 then None
    else if zs[0].id == id then Some(0)
    else match FindIndex(zs[1..], id)
      case None => None
      case Some(k) => Some(k + 1)
  }

  /** The zone shown in the detail panel: the row with the selected id, or the
      first row when no id matches. */
  function SelectedZoneData(selected: string): (z: TariffZone)
    ensures WellFormed(z)
    ensures forall k :: 0 <= k < |Tariffs()| && Tariffs()[k].id == selected ==> z == Tariffs()[k]
    ensures (forall k :: 0 <= k < |Tariffs()| ==> Tariffs()[k].id != selected) ==> z == Tariffs()[0]
  {
    var zs := Tariffs();
    match FindIndex(zs, selected)
    case Some(k) => zs[k]
    case None => zs[0]
  }

  // ---------------------------------------------------------------------
  // Derived values
  // ---------------------------------------------------------------------

  /** Free slots of a zone: total minus occupied. */
  function FreeSlots(z: TariffZone): (free: int)
    ensures WellFormed(z) ==> 0 <= free <= z.totalSlots
    ensures free == 0 <==> z.occupiedSlots == z.totalSlots
  {
    z.totalSlots - z.occupiedSlots
  }

  /** Share of free slots in percent (`availability / totalSlots * 100`),
      computed exactly. */
  function AvailabilityPercent(z: TariffZone): (p: real)
    requires z.totalSlots > 0
    ensures WellFormed(z) ==> 0.0 <= p <= 100.0
    ensures p * z.totalSlots as real == FreeSlots(z) as real * 100.0
  {
    (FreeSlots(z) as real / z.totalSlots as real) * 100.0
  }

  /** Price of `hours` hours in the zone, from its first price entry. */
  function TotalPrice(z: TariffZone, hours: int): (total: int)
    requires |z.prices| > 0
    ensures hours >= 0 ==> total >= 0
  {
    z.prices[0].perHour * hours
  }

  /** The total is a whole number of hourly prices: dividing it by the hours
      gives the hourly price back, and one more hour adds one hourly price. */
  lemma TotalPricePerHour(z: TariffZone, hours: int)
    requires |z.prices| > 0 && hours >= 1
    ensures TotalPrice(z, hours) / hours == z.prices[0].perHour
    ensures TotalPrice(z, hours + 1) == TotalPrice(z, hours) + z.prices[0].perHour
  {
    DivModUnique(TotalPrice(z, hours), hours, z.prices[0].perHour, 0);
  }

  /** The three availability bands (emerald, amber, rose in the page). */
  datatype Band = High | Medium | Low

  /** The band of a percentage: above 50 is high, above 20 is medium, else low. */
  function BandOf(percent: real): (b: Band)
    ensures b == High <==> percent > 50.0
    ensures b == Low <==> percent <= 20.0
  {
    if percent > 50.0 then High else if percent > 20.0 then Medium else Low
  }

  /** The colour word every style of a band is built from. */
  function BandHue(b: Band): string
  {
    match b
    case High => "emerald"
    case Medium => "amber"
    case Low => "rose"
  }

  /** Text colour of the free-slot counter. */
  function AvailabilityColor(percent: real): (c: string)
    ensures c == "text-" + BandHue(BandOf(percent)) + "-400"
  {
    if percent > 50.0 then "text-emerald-400"
    else if percent > 20.0 then "text-amber-400"
    else "text-rose-400"
  }

  /** Background gradient of the availability panel. (The asserts spell out
      the concatenation the solver would otherwise search for.) */
  function AvailabilityBg(percent: real): (c: string)
    ensures c == "from-" + BandHue(BandOf(percent)) + "-500/20 to-" + BandHue(BandOf(percent)) + "-500/5"
  {
    if percent > 50.0 then
      assert "from-" + "emerald" + "-500/20 to-" + "emerald" + "-500/5" == "from-emerald-500/20 to-emerald-500/5";
      "from-emerald-500/20 to-emerald-500/5"
    else if percent > 20.0 then
      assert "from-" + "amber" + "-500/20 to-" + "amber" + "-500/5" == "from-amber-500/20 to-amber-500/5";
      "from-amber-500/20 to-amber-500/5"
    else
      assert "from-" + "rose" + "-500/20 to-" + "rose" + "-500/5" == "from-rose-500/20 to-rose-500/5";
      "from-rose-500/20 to-rose-500/5"
  }

  /** Border of the availability panel. */
  function AvailabilityBorder(percent: real): (c: string)
    ensures c == "border-" + BandHue(BandOf(percent)) + "-400/30"
  {
    if percent > 50.0 then "border-emerald-400/30"
    else if percent > 20.0 then "border-amber-400/30"
    else "border-rose-400/30"
  }

  /** Fill of the availability bar. */
  function AvailabilityBar(percent: real): (c: string)
    ensures c == "bg-gradient-to-r from-" + BandHue(BandOf(percent)) + "-400 to-" + BandHue(BandOf(percent)) + "-600"
  {
    if percent > 50.0 then
      assert "bg-gradient-to-r from-" + "emerald" + "-400 to-" + "emerald" + "-600"
        == "bg-gradient-to-r from-emerald-400 to-emerald-600";
      "bg-gradient-to-r from-emerald-400 to-emerald-600"
    else if percent > 20.0 then
      assert "bg-gradient-to-r from-" + "amber" + "-400 to-" + "amber" + "-600"
        == "bg-gradient-to-r from-amber-400 to-amber-600";
      "bg-gradient-to-r from-amber-400 to-amber-600"
    else
      assert "bg-gradient-to-r from-" + "rose" + "-400 to-" + "rose" + "-600"
        == "bg-gradient-to-r from-rose-400 to-rose-600";
      "bg-gradient-to-r from-rose-400 to-rose-600"
  }

  /** The four styles, written separately in the page, all switch on the same
      two thresholds: two percentages get the same style, whichever of the
      four, exactly when they fall in the same band. */
  lemma StylesShareThresholds(p: real, q: real)
    ensures AvailabilityColor(p) == AvailabilityColor(q) <==> BandOf(p) == BandOf(q)
    ensures AvailabilityBg(p) == AvailabilityBg(q) <==> BandOf(p) == BandOf(q)
    ensures AvailabilityBorder(p) == AvailabilityBorder(q) <==> BandOf(p) == BandOf(q)
    ensures AvailabilityBar(p) == AvailabilityBar(q) <==> BandOf(p) == BandOf(q)
  {
  }

  /** A percentage `p` of `total` with `p * total == free * 100` is above a
      threshold exactly when `free * 100` is above the threshold times `total`. */
  lemma PercentAbove(p: real, total: real, free: real, threshold: real)
    requires total > 0.0 && p * total == free * 100.0
    ensures p > threshold <==> free * 100.0 > threshold * total
  {
    if p > threshold {
      assert (p - threshold) * total > 0.0;
    } else {
      assert (threshold - p) * total >= 0.0;
    }
  }

  /** The percentage thresholds are the integer comparisons
      `free * 100 > 50 * total` and `free * 100 > 20 * total`. */
  lemma BandByCounts(z: TariffZone)
    requires z.totalSlots > 0
    ensures BandOf(AvailabilityPercent(z)) ==
      if FreeSlots(z) * 100 > 50 * z.totalSlots then High
      else if FreeSlots(z) * 100 > 20 * z.totalSlots then Medium
      else Low
  {
    var p, t, f := AvailabilityPercent(z), z.totalSlots as real, FreeSlots(z) as real;
    PercentAbove(p, t, f, 50.0);
    PercentAbove(p, t, f, 20.0);
  }

  /** A full zone is always in the low band. */
  lemma FullZoneIsLow(z: TariffZone)
    requires WellFormed(z) && FreeSlots(z) == 0
    ensures BandOf(AvailabilityPercent(z)) == Low
  {
    BandByCounts(z);
  }

  // ---------------------------------------------------------------------
  // Hour counter
  // ---------------------------------------------------------------------

  const MinHours: int := 1
  const MaxHours: int := 24
  const InitialHours: int := 2

  /** Values offered by the quick-select buttons. */
  const QuickHours: seq<int> := [1, 2, 4, 8]

  predicate HoursInRange(h: int)
  {
    MinHours <= h <= MaxHours
  }

  /** The `−` button: one hour less, but never below one. */
  function DecrementHours(h: int): (r: int)
    ensures r >= MinHours
    ensures HoursInRange(h) ==> HoursInRange(r)
    ensures r == h - 1 || (h <= MinHours && r == MinHours)
  {
    if h - 1 > MinHours then h - 1 else MinHours
  }

  /** The `+` button: one hour more, but never above twenty-four. */
  function IncrementHours(h: int): (r: int)
    ensures r <= MaxHours
    ensures HoursInRange(h) ==> HoursInRange(r)
    ensures r == h + 1 || (h >= MaxHours && r == MaxHours)
  {
    if h + 1 < MaxHours then h + 1 else MaxHours
  }

  /** At the bounds the buttons do nothing; inside, they undo each other. */
  lemma HourButtonsInverse(h: int)
    ensures DecrementHours(MinHours) == MinHours && IncrementHours(MaxHours) == MaxHours
    ensures MinHours < h <= MaxHours ==> IncrementHours(DecrementHours(h)) == h
    ensures MinHours <= h < MaxHours ==> DecrementHours(IncrementHours(h)) == h
  {
  }

  /** The unit word under the counter (Russian "hour"). */
  function HourWord(h: int): (w: string)
    ensures |w| >= 3 && w[..3] == "час"
    ensures h >= 1 ==> (w == "час" <==> h == 1)
    ensures h >= 1 ==> (w == "часа" <==> 2 <= h <= 4)
    ensures h >= 1 ==> (w == "часов" <==> h >= 5)
  {
    if h == 1 then "час" else if h < 5 then "часа" else "часов"
  }

  /** The Russian plural category of a non-negative count. */
  datatype PluralCategory = One | Few | Many

  function PluralOf(n: nat): PluralCategory
  {
    if n % 10 == 1 && n % 100 != 11 then One
    else if 2 <= n % 10 <= 4 && !(12 <= n % 100 <= 14) then Few
    else Many
  }

  /** The unit word that agrees with the count in Russian grammar. */
  function HourWordAgreeing(h: nat): (w: string)
    ensures w == "час" <==> PluralOf(h) == One
    ensures w == "часа" <==> PluralOf(h) == Few
    ensures w == "часов" <==> PluralOf(h) == Many
  {
    match PluralOf(h)
    case One => "час"
    case Few => "часа"
    case Many => "часов"
  }

  /** The page's word agrees with Russian grammar exactly for 1 to 20 hours:
      for 21 to 24 hours it prints "часов" where "час" or "часа" is due. */
  lemma HourWordAgreesUpTo20(h: int)
    requires HoursInRange(h)
    ensures HourWord(h) == HourWordAgreeing(h) <==> h <= 20
  {
    if h <= 20 {
      assert h % 100 == h;
      if h >= 10 { assert h % 10 == h - 10 || h == 20; }
    } else {
      assert h % 10 == h - 20 && h % 100 == h;
      assert HourWord(h) == "часов";
    }
  }

  /** The discrepancy at 21 hours, the first count where it shows. */
  lemma HourWordFrom21(h: int)
    requires 21 <= h <= MaxHours
    ensures HourWord(h) == "часов" && HourWord(h) != HourWordAgreeing(h)
    ensures h == 21 ==> HourWordAgreeing(h) == "час"
    ensures 22 <= h ==> HourWordAgreeing(h) == "часа"
  {
    if h == 21 {
      assert PluralOf(h) == One;
    } else {
      assert h % 10 == h - 20 && h % 100 == h;
      assert PluralOf(h) == Few;
    }
  }

  // ---------------------------------------------------------------------
  // Calculator state and its transitions
  // ---------------------------------------------------------------------

  /** The calculator's two state fields. */
  datatype Selection = Selection(zone: string, hours: int)

  /** The user actions that change the calculator. */
  datatype Action =
    | Decrement
    | Increment
    | QuickSelect(h: int)
    | ClickZone(k: nat)

  /** Actions the page can produce: quick-select offers only its four values,
      and a zone card exists only for rows of the table. */
  predicate Offered(a: Action)
  {
    match a
    case QuickSelect(h) => h in QuickHours
    case ClickZone(k) => k < |Tariffs()|
    case _ => true
  }

  /** Selection after a click on zone card `k`: a full zone is ignored. */
  function ClickedZone(selected: string, k: nat): (r: string)
    requires k < |Tariffs()|
    ensures FreeSlots(Tariffs()[k]) == 0 ==> r == selected
    ensures FreeSlots(Tariffs()[k]) != 0 ==> r == Tariffs()[k].id
  {
    if FreeSlots(Tariffs()[k]) != 0 then Tariffs()[k].id else selected
  }

  /** One action applied to the state. */
  function Step(s: Selection, a: Action): (r: Selection)
    requires Offered(a)
    ensures a.ClickZone? ==> r.hours == s.hours
    ensures !a.ClickZone? ==> r.zone == s.zone
  {
    match a
    case Decrement => s.(hours := DecrementHours(s.hours))
    case Increment => s.(hours := IncrementHours(s.hours))
    case QuickSelect(h) => s.(hours := h)
    case ClickZone(k) => s.(zone := ClickedZone(s.zone, k))
  }

  /** A run of actions, applied in order. */
  function Run(s: Selection, actions: seq<Action>): Selection
    requires forall i :: 0 <= i < |actions| ==> Offered(actions[i])
    decreases |actions|
  {
    if actions == [] then s else Run(Step(s, actions[0]), actions[1..])
  }

  const Initial: Selection := Selection("vr", InitialHours)

  /** What the page keeps true: hours in [1, 24] and a selected zone with at
      least one free slot. */
  predicate Consistent(s: Selection)
  {
    HoursInRange(s.hours) && FreeSlots(SelectedZoneData(s.zone)) >= 1
  }

  lemma InitialConsistent()
    ensures Consistent(Initial)
  {
    assert SelectedZoneData("vr") == Tariffs()[0];
  }

  /** Every offered action keeps the state consistent. */
  lemma StepConsistent(s: Selection, a: Action)
    requires Consistent(s) && Offered(a)
    ensures Consistent(Step(s, a))
  {
    match a
    case ClickZone(k) =>
      if FreeSlots(Tariffs()[k]) != 0 {
        assert SelectedZoneData(Tariffs()[k].id) == Tariffs()[k];
      }
    case _ =>
  }

  /** From the initial state, any run of clicks keeps hours in [1, 24] and
      never selects a full zone. */
  lemma {:induction false} RunConsistent(s: Selection, actions: seq<Action>)
    requires Consistent(s)
    requires forall i :: 0 <= i < |actions| ==> Offered(actions[i])
    ensures Consistent(Run(s, actions))
    decreases |actions|
  {
    if actions != [] {
      StepConsistent(s, actions[0]);
      RunConsistent(Step(s, actions[0]), actions[1..]);
    }
  }

  /** The calculator component's state. */
  class Calculator {
    var selectedZone: string
    var hours: int

    function State(): Selection
      reads this
    {
      Selection(selectedZone, hours)
    }

    ghost predicate Valid()
      reads this
    {
      Consistent(State())
    }

    /** The initial state: zone `vr`, two hours, 1600 in total. */
    constructor ()
      ensures Valid() && State() == Initial
      ensures TotalPrice(Zone(), hours) == 1600
    {
      selectedZone := "vr";
      hours := InitialHours;
      new;
      InitialConsistent();
      assert SelectedZoneData("vr") == Tariffs()[0];
    }

    /** The zone the detail panel shows. */
    function Zone(): (z: TariffZone)
      reads this
      ensures WellFormed(z)
    {
      SelectedZoneData(selectedZone)
    }

    /** Click handler of zone card `k`. */
    method ClickZoneCard(k: nat)
      requires Valid() && k < |Tariffs()|
      modifies this
      ensures Valid() && State() == Step(old(State()), ClickZone(k))
    {
      if FreeSlots(Tariffs()[k]) != 0 {
        selectedZone := Tariffs()[k].id;
      }
      StepConsistent(old(State()), ClickZone(k));
    }

    /** Handler of the `−` button. */
    method Decrement()
      requires Valid()
      modifies this
      ensures Valid() && State() == Step(old(State()), Action.Decrement)
    {
      hours := if hours - 1 > MinHours then hours - 1 else MinHours;
    }

    /** Handler of the `+` button. */
    method Increment()
      requires Valid()
      modifies this
      ensures Valid() && State() == Step(old(State()), Action.Increment)
    {
      hours := if hours + 1 < MaxHours then hours + 1 else MaxHours;
    }

    /** Handler of a quick-select button. */
    method QuickSelect(h: int)
      requires Valid() && h in QuickHours
      modifies this
      ensures Valid() && State() == Step(old(State()), Action.QuickSelect(h))
    {
      hours := h;
    }
  }
}
