/** components/AdminPanel.tsx: catalog editing (start, field input, save,
    active toggle, new service), the template settings with their terms split,
    and the per-subcategory counts behind the catalog chart. */
module AdminPanel {
  import opened Wrappers
  import opened Types
  import opened Text
  import opened Seqs

  // ---------------------------------------------------------------- edit form

  /** `Partial<ServiceItem>`: None is a key the form does not hold. For the
      optional fields, Some(None) is a key that holds `undefined`. */
  datatype EditForm = EditForm(
    id: Option<string>,
    category: Option<string>,
    subcategory: Option<string>,
    name: Option<string>,
    unit: Option<string>,
    price: Option<real>,
    monthlyPrice: Option<Option<real>>,
    priceRange: Option<Option<string>>,
    deliverables: Option<string>,
    description: Option<Option<string>>,
    active: Option<bool>)

  /** `{}`. */
  const EmptyForm: EditForm := EditForm(None, None, None, None, None, None, None, None, None, None, None)

  /** `{ ...service }`: every key the service has; an optional field the
      service lacks is a key the copy lacks too. */
  function FormOf(s: ServiceItem): (f: EditForm)
    ensures f.id == Some(s.id) && f.category == Some(s.category) && f.subcategory == Some(s.subcategory)
    ensures f.name == Some(s.name) && f.unit == Some(s.unit) && f.price == Some(s.price)
    ensures f.deliverables == Some(s.deliverables) && f.active == Some(s.active)
    ensures (f.monthlyPrice.Some? <==> s.monthlyPrice.Some?) && (f.monthlyPrice.Some? ==> f.monthlyPrice.value == s.monthlyPrice)
    ensures (f.priceRange.Some? <==> s.priceRange.Some?) && (f.priceRange.Some? ==> f.priceRange.value == s.priceRange)
    ensures (f.description.Some? <==> s.description.Some?) && (f.description.Some? ==> f.description.value == s.description)
  {
    EditForm(Some(s.id), Some(s.category), Some(s.subcategory), Some(s.name), Some(s.unit),
             Some(s.price),
             if s.monthlyPrice.Some? then Some(s.monthlyPrice) else None,
             if s.priceRange.Some? then Some(s.priceRange) else None,
             Some(s.deliverables),
             if s.description.Some? then Some(s.description) else None,
             Some(s.active))
  }

  /** `{ ...s, ...form }`: every key the form holds replaces the service's. */
  function Overlay(s: ServiceItem, f: EditForm): ServiceItem {
    ServiceItem(f.id.GetOr(s.id), f.category.GetOr(s.category), f.subcategory.GetOr(s.subcategory),
                f.name.GetOr(s.name), f.unit.GetOr(s.unit), f.price.GetOr(s.price),
                f.monthlyPrice.GetOr(s.monthlyPrice), f.priceRange.GetOr(s.priceRange),
                f.deliverables.GetOr(s.deliverables), f.description.GetOr(s.description),
                f.active.GetOr(s.active))
  }

  /** The five inputs of the editing row; numbers arrive through `Number`. */
  datatype Input =
    | NameInput(text: string)
    | SubcategoryInput(text: string)
    | UnitInput(text: string)
    | PriceInput(amount: real)
    | MonthlyPriceInput(amount: real)

  /** handleInputChange: the form with one key set. */
  function WithInput(f: EditForm, input: Input): (g: EditForm)
    ensures input.NameInput? ==> g == f.(name := Some(input.text))
    ensures input.SubcategoryInput? ==> g == f.(subcategory := Some(input.text))
    ensures input.UnitInput? ==> g == f.(unit := Some(input.text))
    ensures input.PriceInput? ==> g == f.(price := Some(input.amount))
    ensures input.MonthlyPriceInput? ==> g == f.(monthlyPrice := Some(Some(input.amount)))
  {
    match input
    case NameInput(t) => f.(name := Some(t))
    case SubcategoryInput(t) => f.(subcategory := Some(t))
    case UnitInput(t) => f.(unit := Some(t))
    case PriceInput(a) => f.(price := Some(a))
    case MonthlyPriceInput(a) => f.(monthlyPrice := Some(Some(a)))
  }

  /** The field an input sets holds the typed value. */
  predicate Shows(s: ServiceItem, input: Input) {
    match input
    case NameInput(t) => s.name == t
    case SubcategoryInput(t) => s.subcategory == t
    case UnitInput(t) => s.unit == t
    case PriceInput(a) => s.price == a
    case MonthlyPriceInput(a) => s.monthlyPrice == Some(a)
  }

  /** The copy is complete: saved over any version of the service that lacks
      no optional key the copy lacks, it restores the copied service. */
  lemma FormRestoresAnyVersion(s: ServiceItem, t: ServiceItem)
    requires s.monthlyPrice.None? ==> t.monthlyPrice.None?
    requires s.priceRange.None? ==> t.priceRange.None?
    requires s.description.None? ==> t.description.None?
    ensures Overlay(t, FormOf(s)) == s
  {
  }

  /** Whatever the form held before, a typed value is what saving writes. */
  lemma InputIsSaved(s: ServiceItem, f: EditForm, input: Input)
    ensures Shows(Overlay(s, WithInput(f, input)), input)
  {
  }

  /** Saving an untouched copy of a service leaves the service as it was, and
      saving the empty form changes nothing either. */
  lemma OverlayNeutral(s: ServiceItem)
    ensures Overlay(s, FormOf(s)) == s
    ensures Overlay(s, EmptyForm) == s
  {
  }

  // ---------------------------------------------------------- catalog updates

  /** saveEdit's update: the service whose id is `editingId` gets the form laid
      over it; with no service being edited nothing matches. */
  function SavedEdit(services: seq<ServiceItem>, editingId: Option<string>, f: EditForm): (r: seq<ServiceItem>)
    ensures |r| == |services|
    ensures forall i :: 0 <= i < |services| && Some(services[i].id) == editingId ==> r[i] == Overlay(services[i], f)
    ensures forall i :: 0 <= i < |services| && Some(services[i].id) != editingId ==> r[i] == services[i]
    ensures editingId.None? ==> r == services
  {
    seq(|services|, i requires 0 <= i < |services| =>
      if Some(services[i].id) == editingId then Overlay(services[i], f) else services[i])
  }

  /** toggleActive's update. */
  function Toggled(services: seq<ServiceItem>, id: string): (r: seq<ServiceItem>)
    ensures |r| == |services|
    ensures forall i :: 0 <= i < |services| ==> r[i].active == (if services[i].id == id then !services[i].active else services[i].active)
    ensures forall i :: 0 <= i < |services| ==> r[i].(active := services[i].active) == services[i]
  {
    seq(|services|, i requires 0 <= i < |services| =>
      if services[i].id == id then services[i].(active := !services[i].active) else services[i])
  }

  /** Toggling the same service twice restores the catalog. */
  lemma ToggleTwice(services: seq<ServiceItem>, id: string)
    ensures Toggled(Toggled(services, id), id) == services
  {
  }

  /** The form holds a full copy of the service, `active` included, so a toggle
      of the row being edited is undone by its save. */
  lemma SaveUndoesToggleOfEditedRow(services: seq<ServiceItem>, i: nat)
    requires i < |services|
    ensures SavedEdit(Toggled(services, services[i].id), Some(services[i].id), FormOf(services[i]))[i] == services[i]
  {
    var t := Toggled(services, services[i].id);
    assert t[i].(active := services[i].active) == services[i];
  }

  /** addNewService's entry, with id `new-` followed by the clock reading. */
  function NewService(id: string): (s: ServiceItem)
    ensures s.id == id && s.price == 0.0 && s.active
    ensures s.monthlyPrice.None? && s.priceRange.None? && s.description.None?
  {
    ServiceItem(id, "New Category", "New Subcategory", "New Service", "Unit", 0.0, None, None, "Description here", None, true)
  }

  /** Decimal digits of a non-negative integer. */
  function Decimal(n: nat): (d: string)
    ensures |d| >= 1 && forall i :: 0 <= i < |d| ==> '0' <= d[i] <= '9'
  {
    if n < 10 then [(48 + n) as char] else Decimal(n / 10) + [(48 + n % 10) as char]
  }

  /** The number a string of decimal digits denotes, most significant first. */
  function DigitsValue(d: string): int
    decreases |d|
  {
    if d == [] then 0 else DigitsValue(d[..|d| - 1]) * 10 + (d[|d| - 1] as int - 48)
  }

  /** The digits written for the clock reading denote that reading. */
  lemma {:induction false} DecimalRoundTrip(n: nat)
    ensures DigitsValue(Decimal(n)) == n
    decreases n
  {
    var d := Decimal(n);
    if n < 10 {
      assert d[..0] == [];
    } else {
      DecimalRoundTrip(n / 10);
      assert d[..|d| - 1] == Decimal(n / 10);
    }
  }

  // ------------------------------------------------------------------- terms

  function NotBlank(line: string): bool { !IsBlank(line) }

  /** saveTemplateConfig's terms: the text split on newlines, with the lines
      that are empty once trimmed dropped. */
  function SavedTerms(text: string): (terms: seq<string>)
    ensures forall i :: 0 <= i < |terms| ==> !IsBlank(terms[i]) && '\n' !in terms[i]
  {
    SplitPartsFree(text, '\n');
    Filter(Split(text, "\n"), NotBlank)
  }

  /** Terms that are not blank and hold no newline survive the editor's round
      trip: joined with newlines, then saved, they come back unchanged. */
  lemma TermsRoundTrip(terms: seq<string>)
    requires forall i :: 0 <= i < |terms| ==> !IsBlank(terms[i]) && '\n' !in terms[i]
    ensures SavedTerms(Join(terms, "\n")) == terms
  {
    if terms == [] {
      assert Split([], "\n") == [[]];
      assert Filter([[]], NotBlank) == Filter([], NotBlank) + Filter([[]], NotBlank)[..0];
    } else {
      SplitJoin(terms, '\n');
      FilterKeepsAll(terms, NotBlank);
    }
  }

  /** Saving twice is saving once: already saved terms are kept as they are. */
  lemma SaveTermsIdempotent(text: string)
    ensures SavedTerms(Join(SavedTerms(text), "\n")) == SavedTerms(text)
  {
    TermsRoundTrip(SavedTerms(text));
  }

  // ------------------------------------------------------------------- chart

  /** `s` ends with `t`. */
  predicate EndsWith(s: string, t: string) {
    |t| <= |s| && s[|s| - |t|..] == t
  }

  lemma EndsWithTail(s: string, k: nat, t: string)
    requires k <= |s| && EndsWith(s[k..], t)
    ensures EndsWith(s, t)
  {
    assert s[|s| - |t|..] == s[k..][|s| - k - |t|..];
  }

  /** The last part of a split is a suffix of the text. */
  lemma {:induction false} SplitLastEnds(s: string, sep: string)
    requires sep != []
    ensures var parts := Split(s, sep); EndsWith(s, parts[|parts| - 1])
    decreases |s|, 1
  {
    if |s| < |sep| {
      assert Split(s, sep) == [s];
    } else if s[..|sep|] == sep {
      SplitLastAfterSep(s, sep);
    } else {
      SplitLastGlued(s, sep);
    }
  }

  lemma {:induction false} SplitLastAfterSep(s: string, sep: string)
    requires sep != [] && |s| >= |sep| && s[..|sep|] == sep
    ensures var parts := Split(s, sep); EndsWith(s, parts[|parts| - 1])
    decreases |s|, 0
  {
    var rest := Split(s[|sep|..], sep);
    assert Split(s, sep) == [[]] + rest;
    SplitLastEnds(s[|sep|..], sep);
    EndsWithTail(s, |sep|, rest[|rest| - 1]);
  }

  lemma {:induction false} SplitLastGlued(s: string, sep: string)
    requires sep != [] && |s| >= |sep| && s[..|sep|] != sep
    ensures var parts := Split(s, sep); EndsWith(s, parts[|parts| - 1])
    decreases |s|, 0
  {
    var rest := Split(s[1..], sep);
    var parts := Split(s, sep);
    assert parts == [[s[0]] + rest[0]] + rest[1..];
    if |rest| == 1 {
      JoinSplit(s[1..], sep);
      assert [s[0]] + s[1..] == s;
    } else {
      assert parts[|parts| - 1] == rest[|rest| - 1];
      SplitLastEnds(s[1..], sep);
      EndsWithTail(s, 1, rest[|rest| - 1]);
    }
  }

  /** `sep` occurs in `s` starting at index `i`. */
  predicate SepAt(s: string, sep: string, i: int) {
    0 <= i && i + |sep| <= |s| && s[i..i + |sep|] == sep
  }

  /** `sep` occurs nowhere in `s`. */
  predicate Lacks(s: string, sep: string) {
    forall i | 0 <= i <= |s| :: !SepAt(s, sep, i)
  }

  /** A text without the separator splits into itself alone. */
  lemma {:induction false} SplitWithoutSep(s: string, sep: string)
    requires sep != [] && Lacks(s, sep)
    ensures Split(s, sep) == [s]
    decreases |s|
  {
    if |s| >= |sep| {
      assert !SepAt(s, sep, 0);
      assert s[..|sep|] == s[0..|sep|];
      forall i | 0 <= i <= |s[1..]| ensures !SepAt(s[1..], sep, i) {
        assert !SepAt(s, sep, i + 1);
        if 0 <= i && i + |sep| <= |s[1..]| {
          assert s[1..][i..i + |sep|] == s[i + 1..i + 1 + |sep|];
        }
      }
      SplitWithoutSep(s[1..], sep);
      assert [s[0]] + s[1..] == s;
    }
  }

  /** The chart's key for a subcategory: the text after its last " - ", or the
      whole subcategory when that text is empty. */
  function ChartKey(subcategory: string): (key: string)
    ensures EndsWith(subcategory, key)
    ensures key == [] ==> subcategory == []
  {
    SplitLastEnds(subcategory, " - ");
    var parts := Split(subcategory, " - ");
    var last := parts[|parts| - 1];
    if last != [] then last else subcategory
  }

  /** A subcategory without " - " is its own key. */
  lemma ChartKeyWhole(subcategory: string)
    requires Lacks(subcategory, " - ")
    ensures ChartKey(subcategory) == subcategory
  {
    SplitWithoutSep(subcategory, " - ");
  }

  /** One bar of the catalog chart, `{ name, count }`. */
  datatype Bar = Bar(name: string, count: int)

  /** The key of every service, in catalog order. */
  function ChartKeys(services: seq<ServiceItem>): (keys: seq<string>)
    ensures |keys| == |services|
    ensures forall i :: 0 <= i < |services| ==> keys[i] == ChartKey(services[i].subcategory)
  {
    seq(|services|, i requires 0 <= i < |services| => ChartKey(services[i].subcategory))
  }

  /** Where the accumulator holds `name`, or -1. */
  function BarIndex(bars: seq<Bar>, name: string): (k: int)
    ensures -1 <= k < |bars|
    ensures k >= 0 ==> bars[k].name == name
    ensures k == -1 <==> forall j :: 0 <= j < |bars| ==> bars[j].name != name
    decreases |bars|
  {
    if bars == [] then -1
    else if bars[|bars| - 1].name == name then |bars| - 1
    else BarIndex(bars[..|bars| - 1], name)
  }

  /** `acc[key] = (acc[key] || 0) + 1`, the entries kept in insertion order as
      `Object.entries` lists them. */
  function Bump(bars: seq<Bar>, key: string): seq<Bar> {
    var k := BarIndex(bars, key);
    if k >= 0 then bars[k := Bar(key, bars[k].count + 1)] else bars + [Bar(key, 1)]
  }

  /** The chart data for a list of keys: the reduce, one key at a time. */
  function Tally(keys: seq<string>): seq<Bar>
    decreases |keys|
  {
    if keys == [] then [] else Bump(Tally(keys[..|keys| - 1]), keys[|keys| - 1])
  }

  function Occurrences(keys: seq<string>, name: string): nat
    decreases |keys|
  {
    if keys == [] then 0
    else Occurrences(keys[..|keys| - 1], name) + (if keys[|keys| - 1] == name then 1 else 0)
  }

  function TotalCount(bars: seq<Bar>): int
    decreases |bars|
  {
    if bars == [] then 0 else TotalCount(bars[..|bars| - 1]) + bars[|bars| - 1].count
  }

  predicate DistinctNames(bars: seq<Bar>) {
    forall i, j :: 0 <= i < j < |bars| ==> bars[i].name != bars[j].name
  }

  lemma {:induction false} TotalCountUpdate(bars: seq<Bar>, k: nat, b: Bar)
    requires k < |bars|
    ensures TotalCount(bars[k := b]) == TotalCount(bars) - bars[k].count + b.count
    decreases |bars|
  {
    var n := |bars|;
    if k < n - 1 {
      assert bars[k := b][..n - 1] == bars[..n - 1][k := b];
      TotalCountUpdate(bars[..n - 1], k, b);
    } else {
      assert bars[k := b][..n - 1] == bars[..n - 1];
    }
  }

  lemma BumpTotal(bars: seq<Bar>, key: string)
    ensures TotalCount(Bump(bars, key)) == TotalCount(bars) + 1
  {
    var k := BarIndex(bars, key);
    if k >= 0 {
      TotalCountUpdate(bars, k, Bar(key, bars[k].count + 1));
    } else {
      assert (bars + [Bar(key, 1)])[..|bars|] == bars;
    }
  }

  /** The counts add up to the number of keys. */
  lemma {:induction false} TallyTotal(keys: seq<string>)
    ensures TotalCount(Tally(keys)) == |keys|
    decreases |keys|
  {
    if keys != [] {
      var n := |keys|;
      var t := Tally(keys[..n - 1]);
      assert Tally(keys) == Bump(t, keys[n - 1]);
      TallyTotal(keys[..n - 1]);
      BumpTotal(t, keys[n - 1]);
    }
  }

  /** Each bar counts the keys that carry its name, and every bar counts at
      least one key. */
  ghost predicate CountsMatch(keys: seq<string>, bars: seq<Bar>) {
    forall j :: 0 <= j < |bars| ==> bars[j].count == Occurrences(keys, bars[j].name) && bars[j].count >= 1
  }

  /** Every key has a bar. */
  ghost predicate Covers(keys: seq<string>, bars: seq<Bar>) {
    forall name :: Occurrences(keys, name) > 0 ==> BarIndex(bars, name) >= 0
  }

  /** `bars` is the chart of `keys`: each name appears once, each count is
      the number of keys with that name, and every key has a bar (so, the
      counts being positive, a name has a bar exactly when it is one of the
      keys). */
  ghost predicate Summarises(keys: seq<string>, bars: seq<Bar>) {
    DistinctNames(bars) && CountsMatch(keys, bars) && Covers(keys, bars)
  }

  lemma OccurrencesSnoc(keys: seq<string>, key: string, name: string)
    ensures Occurrences(keys + [key], name) == Occurrences(keys, name) + (if name == key then 1 else 0)
  {
    assert (keys + [key])[..|keys|] == keys;
  }

  /** Bumping a bar keeps every name where it was. */
  lemma BumpKeepsNames(bars: seq<Bar>, k: nat, key: string)
    requires k < |bars| && bars[k].name == key
    ensures var b2 := bars[k := Bar(key, bars[k].count + 1)];
      |b2| == |bars| && forall j :: 0 <= j < |bars| ==> b2[j].name == bars[j].name
  {
  }

  /** Two lists with the same names at the same places find the same names. */
  lemma SameNamesSameLookup(bars: seq<Bar>, b2: seq<Bar>, name: string)
    requires |b2| == |bars| && forall j :: 0 <= j < |bars| ==> b2[j].name == bars[j].name
    ensures BarIndex(b2, name) >= 0 <==> BarIndex(bars, name) >= 0
  {
    if BarIndex(bars, name) >= 0 {
      assert b2[BarIndex(bars, name)].name == name;
    }
    if BarIndex(b2, name) >= 0 {
      assert bars[BarIndex(b2, name)].name == name;
    }
  }

  /** One step of the reduce never gives two bars the same name. */
  lemma BumpDistinct(bars: seq<Bar>, key: string)
    requires DistinctNames(bars)
    ensures DistinctNames(Bump(bars, key))
  {
    var k := BarIndex(bars, key);
    if k >= 0 {
      BumpKeepsNames(bars, k, key);
    }
  }

  /** One step of the reduce keeps every key with a bar. */
  lemma BumpCovers(keys: seq<string>, bars: seq<Bar>, key: string)
    requires Covers(keys, bars)
    ensures Covers(keys + [key], Bump(bars, key))
  {
    var k := BarIndex(bars, key);
    var b2 := Bump(bars, key);
    if k >= 0 {
      BumpKeepsNames(bars, k, key);
      forall name | Occurrences(keys + [key], name) > 0 ensures BarIndex(b2, name) >= 0 {
        OccurrencesSnoc(keys, key, name);
        SameNamesSameLookup(bars, b2, name);
      }
    } else {
      forall name | Occurrences(keys + [key], name) > 0 ensures BarIndex(b2, name) >= 0 {
        OccurrencesSnoc(keys, key, name);
        if name != key {
          assert b2[BarIndex(bars, name)].name == name;
        }
      }
    }
  }

  /** One step of the reduce keeps every count equal to its key's
      occurrences. */
  lemma BumpCounts(keys: seq<string>, bars: seq<Bar>, key: string)
    requires DistinctNames(bars) && CountsMatch(keys, bars) && Covers(keys, bars)
    ensures CountsMatch(keys + [key], Bump(bars, key))
  {
    var k := BarIndex(bars, key);
    var b2 := Bump(bars, key);
    if k >= 0 {
      forall j | 0 <= j < |b2| ensures b2[j].count == Occurrences(keys + [key], b2[j].name) && b2[j].count >= 1 {
        OccurrencesSnoc(keys, key, b2[j].name);
        if j != k {
          assert bars[j].name != key;
        }
      }
    } else {
      assert Occurrences(keys, key) == 0;
      forall j | 0 <= j < |b2| ensures b2[j].count == Occurrences(keys + [key], b2[j].name) && b2[j].count >= 1 {
        OccurrencesSnoc(keys, key, b2[j].name);
      }
    }
  }

  /** The reduce builds the chart of its keys. */
  lemma {:induction false} TallyCounts(keys: seq<string>)
    ensures Summarises(keys, Tally(keys))
    decreases |keys|
  {
    if keys != [] {
      var n := |keys|;
      var prev := keys[..n - 1];
      var key := keys[n - 1];
      TallyCounts(prev);
      assert prev + [key] == keys;
      assert Tally(keys) == Bump(Tally(prev), key);
      BumpDistinct(Tally(prev), key);
      BumpCounts(prev, Tally(prev), key);
      BumpCovers(prev, Tally(prev), key);
    }
  }

  /** The lookup `acc[key]` inside the reduce. The accumulator object is
      modelled as a list of bars, so the hash lookup becomes a scan, here from
      the back. */
  method FindBar(bars: seq<Bar>, name: string) returns (k: int)
    ensures k == BarIndex(bars, name)
  {
    k := |bars| - 1;
    assert bars[..k + 1] == bars;
    while k >= 0 && bars[k].name != name
      invariant -1 <= k < |bars|
      invariant BarIndex(bars, name) == BarIndex(bars[..k + 1], name)
    {
      assert bars[..k + 1][..k] == bars[..k];
      k := k - 1;
    }
    if k >= 0 {
      assert bars[..k + 1][k] == bars[k];
    }
  }

  /** One step of the reduce: `acc[key] = (acc[key] || 0) + 1`. */
  method CountKey(bars: seq<Bar>, key: string) returns (r: seq<Bar>)
    ensures r == Bump(bars, key)
  {
    var k := FindBar(bars, key);
    if k >= 0 {
      r := bars[k := Bar(key, bars[k].count + 1)];
    } else {
      r := bars + [Bar(key, 1)];
    }
  }

  /** serviceChartData: each service bumps the count of its key. */
  method ChartData(services: seq<ServiceItem>) returns (bars: seq<Bar>)
    ensures bars == Tally(ChartKeys(services))
  {
    var keys := ChartKeys(services);
    bars := [];
    var i := 0;
    while i < |services|
      invariant 0 <= i <= |services|
      invariant bars == Tally(keys[..i])
    {
      bars := CountKey(bars, ChartKey(services[i].subcategory));
      TallyStep(keys, i);
      i := i + 1;
    }
    assert keys[..|services|] == keys;
  }

  lemma TallyStep(keys: seq<string>, i: nat)
    requires i < |keys|
    ensures Tally(keys[..i + 1]) == Bump(Tally(keys[..i]), keys[i])
  {
    assert keys[..i + 1][..i] == keys[..i];
  }

  /** The chart shows every service exactly once: one bar per distinct key,
      counts matching the services that carry the key and adding up to the
      size of the catalog. */
  lemma ChartAccounts(services: seq<ServiceItem>)
    ensures TotalCount(Tally(ChartKeys(services))) == |services|
    ensures DistinctNames(Tally(ChartKeys(services)))
    ensures forall i :: 0 <= i < |services| ==>
      var k := BarIndex(Tally(ChartKeys(services)), ChartKey(services[i].subcategory));
      k >= 0 && Tally(ChartKeys(services))[k].count == Occurrences(ChartKeys(services), ChartKey(services[i].subcategory))
  {
    var keys := ChartKeys(services);
    TallyTotal(keys);
    TallyCounts(keys);
    forall i | 0 <= i < |services|
      ensures Occurrences(keys, keys[i]) > 0
    {
      OccurrencesPositive(keys, i);
    }
  }

  lemma {:induction false} OccurrencesPositive(keys: seq<string>, i: nat)
    requires i < |keys|
    ensures Occurrences(keys, keys[i]) > 0
    decreases |keys|
  {
    if i < |keys| - 1 {
      OccurrencesPositive(keys[..|keys| - 1], i);
    }
  }

  // --------------------------------------------------------------- dashboard

  /** The admin screen's state: the catalog and template it edits (held by the
      application and passed down with their setters), the row being edited
      with its form, and the template text as typed. */
  class Dashboard {
    var services: seq<ServiceItem>
    var editingId: Option<string>
    var editForm: EditForm
    var config: ProposalConfig
    var tempTerms: string
    var tempEmail: string
    var tempHeader: string

    /** The typed template starts as the saved one, terms one per line. */
    constructor(services: seq<ServiceItem>, config: ProposalConfig)
      ensures this.services == services && this.config == config
      ensures editingId == None && editForm == EmptyForm
      ensures tempTerms == Join(config.termsAndConditions, "\n")
      ensures tempEmail == config.contactEmail && tempHeader == config.headerTitle
    {
      this.services := services;
      this.config := config;
      editingId := None;
      editForm := EmptyForm;
      tempTerms := Join(config.termsAndConditions, "\n");
      tempEmail := config.contactEmail;
      tempHeader := config.headerTitle;
    }

    /** startEdit. */
    method StartEdit(s: ServiceItem)
      modifies this
      ensures editingId == Some(s.id) && editForm == FormOf(s)
      ensures services == old(services) && config == old(config)
      ensures tempTerms == old(tempTerms) && tempEmail == old(tempEmail) && tempHeader == old(tempHeader)
    {
      editingId := Some(s.id);
      editForm := FormOf(s);
    }

    /** handleInputChange. */
    method InputChange(input: Input)
      modifies this
      ensures editForm == WithInput(old(editForm), input)
      ensures editingId == old(editingId) && services == old(services) && config == old(config)
      ensures tempTerms == old(tempTerms) && tempEmail == old(tempEmail) && tempHeader == old(tempHeader)
    {
      editForm := WithInput(editForm, input);
    }

    /** saveEdit: the form is written over the edited service and the edit
        ends. */
    method SaveEdit()
      modifies this
      ensures services == SavedEdit(old(services), old(editingId), old(editForm))
      ensures editingId == None && editForm == EmptyForm
      ensures config == old(config)
      ensures tempTerms == old(tempTerms) && tempEmail == old(tempEmail) && tempHeader == old(tempHeader)
    {
      services := SavedEdit(services, editingId, editForm);
      editingId := None;
      editForm := EmptyForm;
    }

    /** toggleActive. */
    method ToggleActive(id: string)
      modifies this
      ensures services == Toggled(old(services), id)
      ensures editingId == old(editingId) && editForm == old(editForm) && config == old(config)
      ensures tempTerms == old(tempTerms) && tempEmail == old(tempEmail) && tempHeader == old(tempHeader)
    {
      services := Toggled(services, id);
    }

    /** addNewService: `now` is the clock reading that names the new service;
        the new row opens for editing. */
    method AddNewService(now: nat)
      modifies this
      ensures services == old(services) + [NewService("new-" + Decimal(now))]
      ensures editingId == Some("new-" + Decimal(now)) && editForm == FormOf(NewService("new-" + Decimal(now)))
      ensures config == old(config)
      ensures tempTerms == old(tempTerms) && tempEmail == old(tempEmail) && tempHeader == old(tempHeader)
    {
      var newService := NewService("new-" + Decimal(now));
      services := services + [newService];
      StartEdit(newService);
    }

    /** The three template inputs. */
    method TypeTemplate(terms: string, email: string, header: string)
      modifies this
      ensures tempTerms == terms && tempEmail == email && tempHeader == header
      ensures services == old(services) && editingId == old(editingId) && editForm == old(editForm)
      ensures config == old(config)
    {
      tempTerms, tempEmail, tempHeader := terms, email, header;
    }

    /** saveTemplateConfig (the confirmation alert left out). */
    method SaveTemplateConfig()
      modifies this
      ensures config == ProposalConfig(SavedTerms(old(tempTerms)), old(tempEmail), old(tempHeader))
      ensures services == old(services) && editingId == old(editingId) && editForm == old(editForm)
      ensures tempTerms == old(tempTerms) && tempEmail == old(tempEmail) && tempHeader == old(tempHeader)
    {
      config := ProposalConfig(SavedTerms(tempTerms), tempEmail, tempHeader);
    }
  }
}
