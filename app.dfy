/** App.tsx: the invoice form. Five text fields hold amounts; `parseValue` turns
    each into a number and `total` adds them up. The fields are restored from
    local storage once on mount and written back through a 3000 ms debounce. */
module App {
  import opened Wrappers
  import opened Sequences
  import opened CurrencyInput
  import InvoiceTemplate

  // ---------------------------------------------------------------------------
  // Parsing and the total (App.tsx:38-45)

  function DigitValue(c: char): nat
    requires IsDigit(c)
  {
    c as int - '0' as int
  }

  /** The decimal value of a digit string, most significant digit first. */
  function DecimalValue(s: string): nat
    requires AllDigits(s)
  {
    if s == [] then 0 else 10 * DecimalValue(s[..|s| - 1]) + DigitValue(s[|s| - 1])
  }

  /** `parseFloat` on the only shape the input handler produces: a digit string
      reads as its decimal value and the empty string reads as `NaN` (`None`). */
  function ParseFloat(s: string): (r: Option<nat>)
    requires AllDigits(s)
    ensures r.None? <==> s == ""
  {
    if s == "" then None else Some(DecimalValue(s))
  }

  /** `parseValue`: `NaN` is coerced to 0, any other parse is kept. */
  function ParseValue(s: string): (v: nat)
    requires AllDigits(s)
    ensures s == "" ==> v == 0
    ensures s != "" ==> v == DecimalValue(s)
  {
    match ParseFloat(s)
    case None => 0
    case Some(n) => n
  }

  predicate AllZeros(s: string)
  {
    forall i :: 0 <= i < |s| ==> s[i] == '0'
  }

  /** A field parses to 0 exactly when it is empty or made of zeros only. */
  lemma {:induction false} ParseValueZeroIff(s: string)
    requires AllDigits(s)
    ensures ParseValue(s) == 0 <==> AllZeros(s)
  {
    DecimalValueZeroIff(s);
  }

  lemma {:induction false} DecimalValueZeroIff(s: string)
    requires AllDigits(s)
    ensures DecimalValue(s) == 0 <==> AllZeros(s)
  {
    if s != [] {
      var init := s[..|s| - 1];
      DecimalValueZeroIff(init);
      assert AllZeros(s) <==> AllZeros(init) && s[|s| - 1] == '0' by {
        assert s == init + [s[|s| - 1]];
      }
    }
  }

  /** Typing a digit after any field shifts its value one decimal place and
      adds the digit; an empty field counts as 0. */
  lemma ParseValueAppendDigit(s: string, c: char)
    requires AllDigits(s) && IsDigit(c)
    ensures AllDigits(s + [c])
    ensures ParseValue(s + [c]) == 10 * ParseValue(s) + DigitValue(c)
  {
    assert (s + [c])[..|s|] == s;
  }

  /** A text with no digit in it filters to the empty value, which parses to 0. */
  lemma NoDigitParsesToZero(raw: string)
    requires !HasDigit(raw)
    ensures ParseValue(DigitsOnly(raw)) == 0
  {
  }

  /** The five form fields, in the order the form declares them. */
  datatype Field = Rent | ManagementFee | WaterBill | ElectricityBill | ParkingFee

  /** The form state; also the shape of the JSON object the save effect writes. */
  datatype Fields = Fields(rent: string, managementFee: string, waterBill: string,
                           electricityBill: string, parkingFee: string)
  {
    function Get(k: Field): string
    {
      match k
      case Rent => rent
      case ManagementFee => managementFee
      case WaterBill => waterBill
      case ElectricityBill => electricityBill
      case ParkingFee => parkingFee
    }

    /** The state after one setter call. */
    function With(k: Field, v: string): (r: Fields)
      ensures r.Get(k) == v
      ensures forall j :: j != k ==> r.Get(j) == Get(j)
    {
      match k
      case Rent => this.(rent := v)
      case ManagementFee => this.(managementFee := v)
      case WaterBill => this.(waterBill := v)
      case ElectricityBill => this.(electricityBill := v)
      case ParkingFee => this.(parkingFee := v)
    }
  }

  /** The persisted JSON object `{rent, managementFee, waterBill, electricityBill, parkingFee}`. */
  type Snapshot = Fields

  /** Every field starts as `useState<string>('')`. */
  const Empty: Fields := Fields("", "", "", "", "")

  predicate DigitFields(f: Fields)
  {
    AllDigits(f.rent) && AllDigits(f.managementFee) && AllDigits(f.waterBill)
    && AllDigits(f.electricityBill) && AllDigits(f.parkingFee)
  }

  /** The `total` memo, added in the source's order. */
  function Total(f: Fields): (t: nat)
    requires DigitFields(f)
    ensures t == Sum(Amounts(f))
  {
    SumOfFive(ParseValue(f.rent), ParseValue(f.managementFee), ParseValue(f.waterBill),
              ParseValue(f.electricityBill), ParseValue(f.parkingFee));
    ParseValue(f.rent) + ParseValue(f.managementFee) + ParseValue(f.waterBill)
    + ParseValue(f.electricityBill) + ParseValue(f.parkingFee)
  }

  /** A field holding "5000000" and one holding "200000", the others empty,
      total 5200000. */
  lemma ExampleTotal()
    ensures DigitFields(Fields("5000000", "", "200000", "", ""))
    ensures Total(Fields("5000000", "", "200000", "", "")) == 5200000
  {
    FiveMillion();
    TwoHundredThousand();
  }

  lemma FiveMillion()
    ensures AllDigits("5000000") && DecimalValue("5000000") == 5000000
  {
    assert DecimalValue("5") == 5;
    assert DecimalValue("50") == 50 by { assert "50"[..1] == "5"; }
    assert DecimalValue("500") == 500 by { assert "500"[..2] == "50"; }
    assert DecimalValue("5000") == 5000 by { assert "5000"[..3] == "500"; }
    assert DecimalValue("50000") == 50000 by { assert "50000"[..4] == "5000"; }
    assert DecimalValue("500000") == 500000 by { assert "500000"[..5] == "50000"; }
    assert "5000000"[..6] == "500000";
  }

  lemma TwoHundredThousand()
    ensures AllDigits("200000") && DecimalValue("200000") == 200000
  {
    assert DecimalValue("2") == 2;
    assert DecimalValue("20") == 20 by { assert "20"[..1] == "2"; }
    assert DecimalValue("200") == 200 by { assert "200"[..2] == "20"; }
    assert DecimalValue("2000") == 2000 by { assert "2000"[..3] == "200"; }
    assert DecimalValue("20000") == 20000 by { assert "20000"[..4] == "2000"; }
    assert "200000"[..5] == "20000";
  }

  /** The parsed fields, one per line item. */
  function Amounts(f: Fields): (a: seq<int>)
    requires DigitFields(f)
    ensures |a| == 5 && forall i :: 0 <= i < 5 ==> a[i] >= 0
  {
    [ParseValue(f.rent), ParseValue(f.managementFee), ParseValue(f.waterBill),
     ParseValue(f.electricityBill), ParseValue(f.parkingFee)]
  }

  /** The total is the sum of the parsed fields taken in any order. */
  lemma TotalAnyOrder(f: Fields, order: seq<int>)
    requires DigitFields(f)
    requires multiset(order) == multiset(Amounts(f))
    ensures Sum(order) == Total(f)
  {
    SumPermutation(order, Amounts(f));
  }

  lemma SumOfFive(a: int, b: int, c: int, d: int, e: int)
    ensures Sum([a, b, c, d, e]) == a + b + c + d + e
  {
    assert [e][1..] == [];
    assert Sum([e]) == e;
    assert [d, e][1..] == [e];
    assert Sum([d, e]) == d + e;
    assert [c, d, e][1..] == [d, e];
    assert Sum([c, d, e]) == c + d + e;
    assert [b, c, d, e][1..] == [c, d, e];
    assert Sum([b, c, d, e]) == b + c + d + e;
    assert [a, b, c, d, e][1..] == [b, c, d, e];
  }

  /** The props App passes to the invoice template. */
  function InvoiceProps(f: Fields): (p: InvoiceTemplate.Props)
    requires DigitFields(f)
    ensures p.total == Total(f)
    ensures [p.rent, p.managementFee, p.waterBill, p.electricityBill, p.parkingFee] == Amounts(f)
  {
    InvoiceTemplate.Props(ParseValue(f.rent), ParseValue(f.managementFee), ParseValue(f.waterBill),
                          ParseValue(f.electricityBill), ParseValue(f.parkingFee), Total(f))
  }

  /** On the rendered invoice the amounts of the shown rows add up to the total,
      and the total is shown formatted. */
  lemma InvoiceRowsAddUpToTotal(f: Fields, format: int -> string)
    requires DigitFields(f)
    ensures var inv := InvoiceTemplate.Render(InvoiceProps(f), format);
            Sum(InvoiceTemplate.RowAmounts(inv.rows)) == Total(f) && inv.totalText == format(Total(f))
  {
    InvoiceTemplate.RenderedRowsSum(InvoiceProps(f), format);
    TotalAnyOrder(f, Amounts(f));
  }

  /** A field's line is printed exactly when the field holds a non-zero digit. */
  lemma RowShownIff(f: Fields, format: int -> string, i: nat)
    requires DigitFields(f) && i < 5
    ensures var items := InvoiceTemplate.LineItems(InvoiceProps(f));
            var inv := InvoiceTemplate.Render(InvoiceProps(f), format);
            (InvoiceTemplate.AllRows(items, format)[i] in inv.rows
             <==> !AllZeros([f.rent, f.managementFee, f.waterBill, f.electricityBill, f.parkingFee][i]))
  {
    var s := [f.rent, f.managementFee, f.waterBill, f.electricityBill, f.parkingFee][i];
    ParseValueZeroIff(s);
  }

  // ---------------------------------------------------------------------------
  // Persistence (App.tsx:10-25, 113-140) and the view toggle (App.tsx:28, 51-58)

  const StorageKey: string := "rental_invoice_form"

  /** The debounce delay of the save effect, in milliseconds. */
  const SaveDelay: nat := 3000

  datatype View = Form | Review

  /** `localStorage.getItem` followed by a successful `JSON.parse` to an object.
      An entry that fails to parse, or parses to a non-object, is passed to
      `InvoiceForm.Load` as `None` like a missing one. */
  function ReadEntry(storage: map<string, Snapshot>): (r: Option<Snapshot>)
    ensures r.Some? <==> StorageKey in storage
    ensures r.Some? ==> r.value == storage[StorageKey]
  {
    if StorageKey in storage then Some(storage[StorageKey]) else None
  }

  /** `if (data.x) setX(data.x)`: only a truthy, that is non-empty, stored value is taken. */
  function PreferTruthy(stored: string, current: string): string
  {
    if stored != "" then stored else current
  }

  /** The fields after the mount-time load effect. Without a stored object
      nothing changes; with one, a field takes the stored value exactly when
      that value is non-empty, and keeps its own value otherwise. */
  function Restore(current: Fields, stored: Option<Snapshot>): (r: Fields)
    ensures stored.None? ==> r == current
    ensures forall k :: r.Get(k) != current.Get(k) ==>
              stored.Some? && stored.value.Get(k) != "" && r.Get(k) == stored.value.Get(k)
    ensures stored.Some? ==> forall k :: stored.value.Get(k) != "" ==> r.Get(k) == stored.value.Get(k)
    ensures stored.Some? ==> forall k :: stored.value.Get(k) == "" ==> r.Get(k) == current.Get(k)
  {
    match stored
    case None => current
    case Some(data) =>
      Fields(PreferTruthy(data.rent, current.rent),
             PreferTruthy(data.managementFee, current.managementFee),
             PreferTruthy(data.waterBill, current.waterBill),
             PreferTruthy(data.electricityBill, current.electricityBill),
             PreferTruthy(data.parkingFee, current.parkingFee))
  }

  /** Loading a snapshot the save effect wrote into the default form restores
      exactly the saved values, empty ones included. */
  lemma RestoreRoundTrip(saved: Fields)
    ensures Restore(Empty, Some(saved)) == saved
  {
  }

  /** The mounted form: the five fields, the current view, the one pending
      debounce timer, and the storage the save effect writes to. */
  class InvoiceForm {
    var rent: string
    var managementFee: string
    var waterBill: string
    var electricityBill: string
    var parkingFee: string
    var view: View
    /** Deadline of the pending save timer (`setTimeout` handle), if any. */
    var pending: Option<int>
    /** Local storage, each key holding the object its JSON text parses to. */
    var storage: map<string, Snapshot>
    var mounted: bool
    /** Time of the latest event, in milliseconds. */
    var clock: int
    /** The field values when the pending timer was last started. */
    ghost var scheduled: Fields
    /** Every snapshot the save effect has written, oldest first. */
    ghost var writes: seq<Snapshot>

    function Current(): Fields
      reads this
    {
      Fields(rent, managementFee, waterBill, electricityBill, parkingFee)
    }

    /** A pending timer belongs to a mounted form, is due no later than one
        delay after the latest event, and was started for the values the fields hold now: every
        change restarts it, so it writes the state as of the last change. */
    ghost predicate Valid()
      reads this
    {
      && (pending.Some? ==> mounted && scheduled == Current() && pending.value <= clock + SaveDelay)
      && (writes != [] ==> StorageKey in storage && storage[StorageKey] == writes[|writes| - 1])
    }

    /** First render: all fields empty, the form view, and the debounce effect's
        first run, which schedules a write of the empty fields. */
    constructor Mount(saved: map<string, Snapshot>, now: int)
      ensures Valid()
      ensures Current() == Empty && view == Form && mounted && clock == now
      ensures pending == Some(now + SaveDelay)
      ensures storage == saved && writes == []
    {
      rent, managementFee, waterBill, electricityBill, parkingFee := "", "", "", "", "";
      view := Form;
      pending := Some(now + SaveDelay);
      storage := saved;
      mounted := true;
      clock := now;
      scheduled := Empty;
      writes := [];
    }

    /** One state setter, before React decides whether anything changed. */
    method Assign(k: Field, v: string)
      modifies this
      ensures Current() == old(Current()).With(k, v)
      ensures view == old(view) && pending == old(pending) && storage == old(storage)
      ensures mounted == old(mounted) && clock == old(clock)
      ensures scheduled == old(scheduled) && writes == old(writes)
    {
      match k
      case Rent => rent := v;
      case ManagementFee => managementFee := v;
      case WaterBill => waterBill := v;
      case ElectricityBill => electricityBill := v;
      case ParkingFee => parkingFee := v;
    }

    /** A setter call at time `now`. React ignores a value equal to the current
        one and every call after unmount; any real change re-runs the debounce
        effect, whose cleanup cancels the pending timer before a new one is
        started `SaveDelay` after the change. */
    method Edit(k: Field, v: string, now: int)
      requires Valid() && clock <= now
      modifies this
      ensures Valid() && clock == now
      ensures var changed := old(mounted) && v != old(Current().Get(k));
              && Current() == (if changed then old(Current()).With(k, v) else old(Current()))
              && pending == (if changed then Some(now + SaveDelay) else old(pending))
      ensures storage == old(storage) && writes == old(writes)
      ensures view == old(view) && mounted == old(mounted)
    {
      clock := now;
      if mounted && v != Current().Get(k) {
        Assign(k, v);
        pending := Some(now + SaveDelay);
        scheduled := Current();
      }
    }

    /** A keystroke in the `CurrencyInput` bound to field `k`: the digit filter
        runs first and its result goes to the field's setter. Whatever the
        keystroke, the field then holds digits only. */
    method InputChange(k: Field, raw: string, now: int)
      requires Valid() && clock <= now
      modifies this
      ensures Valid() && clock == now
      ensures mounted ==> AllDigits(Current().Get(k))
      ensures var v := DigitsOnly(raw);
              var changed := old(mounted) && v != old(Current().Get(k));
              && Current() == (if changed then old(Current()).With(k, v) else old(Current()))
              && pending == (if changed then Some(now + SaveDelay) else old(pending))
      ensures storage == old(storage) && writes == old(writes)
      ensures view == old(view) && mounted == old(mounted)
    {
      Edit(k, DigitsOnly(raw), now);
    }

    /** The load effect's five guarded setter calls for a parsed object. A
        setter skipped for a falsy value and a setter given the current value
        both leave the field as it was. */
    method Adopt(data: Snapshot)
      modifies this
      ensures Current() == Restore(old(Current()), Some(data))
      ensures view == old(view) && pending == old(pending) && storage == old(storage)
      ensures mounted == old(mounted) && clock == old(clock)
      ensures scheduled == old(scheduled) && writes == old(writes)
    {
      rent := PreferTruthy(data.rent, rent);
      managementFee := PreferTruthy(data.managementFee, managementFee);
      waterBill := PreferTruthy(data.waterBill, waterBill);
      electricityBill := PreferTruthy(data.electricityBill, electricityBill);
      parkingFee := PreferTruthy(data.parkingFee, parkingFee);
    }

    /** The mount-time load effect, given the parsed storage entry. Fields change
        as `Restore` says; if any did, the re-render restarts the save timer,
        cancelling the write of the empty fields scheduled by the mount. */
    method Load(stored: Option<Snapshot>, now: int)
      requires Valid() && mounted && clock <= now
      modifies this
      ensures Valid() && clock == now
      ensures Current() == Restore(old(Current()), stored)
      ensures pending == (if Current() != old(Current()) then Some(now + SaveDelay) else old(pending))
      ensures storage == old(storage) && writes == old(writes)
      ensures view == old(view) && mounted == old(mounted)
    {
      var before := Current();
      clock := now;
      if stored.Some? {
        Adopt(stored.value);
      }
      if Current() != before {
        pending := Some(now + SaveDelay);
        scheduled := Current();
      }
    }

    /** Time advances to `now`. If the pending timer's deadline has passed, it
        fires once: the latest callback writes the current fields under the
        storage key, and no timer is left pending. Otherwise nothing happens. */
    method Tick(now: int)
      requires Valid() && clock <= now
      modifies this
      ensures Valid() && clock == now
      ensures Current() == old(Current()) && view == old(view) && mounted == old(mounted)
      ensures var fires := old(pending).Some? && old(pending).value <= now;
              if fires then
                && storage == old(storage)[StorageKey := old(Current())]
                && old(Current()) == old(scheduled)
                && writes == old(writes) + [old(Current())]
                && pending == None
              else
                storage == old(storage) && writes == old(writes) && pending == old(pending)
    {
      clock := now;
      if pending.Some? && pending.value <= now {
        storage := storage[StorageKey := Current()];
        writes := writes + [Current()];
        pending := None;
      }
    }

    /** Teardown: the effect cleanup clears the pending timer, so no write
        happens afterwards, and later setter calls are ignored. */
    method Unmount()
      requires Valid()
      modifies this
      ensures Valid()
      ensures pending == None && !mounted
      ensures Current() == old(Current()) && view == old(view) && clock == old(clock)
      ensures storage == old(storage) && writes == old(writes)
    {
      pending := None;
      mounted := false;
    }

    /** `handleProceedToReview`. */
    method ProceedToReview()
      modifies this`view
      ensures view == Review
    {
      view := Review;
    }

    /** `handleGoBackToForm`. */
    method GoBackToForm()
      modifies this`view
      ensures view == Form
    {
      view := Form;
    }
  }

  /** Fill in a form, let the debounce write it, then open the app again: the
      new form's load effect restores exactly the values typed before. */
  method SaveThenReload(f: Fields, start: int) returns (restored: Fields)
    ensures restored == f
  {
    var form := new InvoiceForm.Mount(map[], start);
    form.Edit(Rent, f.rent, start);
    form.Edit(ManagementFee, f.managementFee, start);
    form.Edit(WaterBill, f.waterBill, start);
    form.Edit(ElectricityBill, f.electricityBill, start);
    form.Edit(ParkingFee, f.parkingFee, start);
    assert form.Current() == f;
    form.Tick(start + SaveDelay);
    var later := new InvoiceForm.Mount(form.storage, start + SaveDelay);
    later.Load(ReadEntry(later.storage), start + SaveDelay);
    restored := later.Current();
  }

  /** Two quick edits to the rent: nothing is written when the first edit's
      window ends, and exactly one write, holding the last value, lands one
      delay after the second edit. */
  method DebouncedBurst(first: string, last: string, start: int)
    returns (writtenEarly: bool, saved: Option<Snapshot>)
    requires first != "" && last != first
    ensures !writtenEarly
    ensures saved == Some(Empty.With(Rent, last))
  {
    var form := new InvoiceForm.Mount(map[], start);
    form.Edit(Rent, first, start + 1000);
    form.Edit(Rent, last, start + 2000);
    form.Tick(start + 1000 + SaveDelay);
    writtenEarly := StorageKey in form.storage;
    form.Tick(start + 2000 + SaveDelay);
    assert |form.writes| == 1;
    saved := ReadEntry(form.storage);
  }

  /** One setter call in a burst: which field, the new value, and when. */
  datatype Change = Change(field: Field, value: string, at: int)

  /** The fields after applying a sequence of setter calls to `f` in order. */
  function Replay(f: Fields, changes: seq<Change>): Fields
    decreases |changes|
  {
    if changes == [] then f
    else Replay(f.With(changes[0].field, changes[0].value), changes[1..])
  }

  /** Every change in the sequence sets its field to a value different from
      the one the field holds when that change arrives. */
  predicate AllReal(f: Fields, changes: seq<Change>)
    decreases |changes|
  {
    changes == []
    || (f.Get(changes[0].field) != changes[0].value
        && AllReal(f.With(changes[0].field, changes[0].value), changes[1..]))
  }

  /** One change arriving before the pending timer is due: the event loop
      gives the timer its chance first, it is not due, so nothing is written;
      then the setter changes the field and restarts the timer. */
  method ChangeArrives(form: InvoiceForm, c: Change)
    requires form.Valid() && form.mounted && form.clock <= c.at
    requires form.pending.Some? ==> c.at < form.pending.value
    requires form.Current().Get(c.field) != c.value
    modifies form
    ensures form.Valid() && form.mounted && form.clock == c.at
    ensures form.Current() == old(form.Current()).With(c.field, c.value)
    ensures form.pending == Some(c.at + SaveDelay)
    ensures form.writes == old(form.writes) && form.storage == old(form.storage)
  {
    form.Tick(c.at);
    form.Edit(c.field, c.value, c.at);
  }

  /** A burst of real changes to a mounted form, each arriving before the
      pending timer is due: the one pending before the burst for the first
      change, and the one the previous change restarted, 3000 ms later, for
      every other change. However long the burst lasts, the timer that is given
      its chance to fire before each change is never due, so nothing is written
      during it; one delay after the last change exactly one write lands,
      holding the fields after that change. */
  method DebouncedEdits(form: InvoiceForm, changes: seq<Change>)
    requires form.Valid() && form.mounted && |changes| > 0
    requires form.clock <= changes[0].at
    requires form.pending.Some? ==> changes[0].at < form.pending.value
    requires forall i :: 0 < i < |changes| ==>
               changes[i - 1].at <= changes[i].at < changes[i - 1].at + SaveDelay
    requires AllReal(form.Current(), changes)
    modifies form
    ensures form.Valid() && form.mounted && form.pending == None
    ensures form.clock == changes[|changes| - 1].at + SaveDelay
    ensures form.Current() == Replay(old(form.Current()), changes)
    ensures form.writes == old(form.writes) + [Replay(old(form.Current()), changes)]
    ensures form.storage == old(form.storage)[StorageKey := Replay(old(form.Current()), changes)]
  {
    ghost var written, stored := form.writes, form.storage;
    ghost var after := Replay(form.Current(), changes);
    ChangeArrives(form, changes[0]);
    var i := 1;
    while i < |changes|
      invariant 1 <= i <= |changes|
      invariant form.Valid() && form.mounted
      invariant form.clock == changes[i - 1].at
      invariant form.pending == Some(changes[i - 1].at + SaveDelay)
      invariant Replay(form.Current(), changes[i..]) == after
      invariant AllReal(form.Current(), changes[i..])
      invariant form.writes == written && form.storage == stored
    {
      assert changes[i..][1..] == changes[i + 1..];
      ChangeArrives(form, changes[i]);
      i := i + 1;
    }
    form.Tick(changes[i - 1].at + SaveDelay);
  }

  /** An edit followed by teardown before the delay elapses is never written. */
  method UnmountDropsPendingSave(v: string, start: int, later: int) returns (written: bool)
    requires start <= later
    ensures !written
  {
    var form := new InvoiceForm.Mount(map[], start);
    form.Edit(Rent, v, start);
    form.Unmount();
    form.Tick(later);
    written := StorageKey in form.storage;
  }

  /** With no usable entry in storage the load changes nothing, so the write
      scheduled on mount goes ahead and stores the empty fields. */
  method MountWithoutEntry(start: int) returns (saved: Option<Snapshot>)
    ensures saved == Some(Empty)
  {
    var form := new InvoiceForm.Mount(map[], start);
    form.Load(None, start);
    form.Tick(start + SaveDelay);
    saved := ReadEntry(form.storage);
  }
}
