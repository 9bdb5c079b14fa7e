/**
 * The value normalisation of backend/etl/load.py: vendor ids are trimmed and
 * lose one trailing ".0", numeric cells become exact decimals below a cap or
 * None, the vendor table is the sorted set of distinct ids, and trips are
 * written in batches. The database session, CSV reading and pandas frames are
 * not modelled: a frame is a sequence of rows, a column a sequence of cells.
 */
module EtlLoad {
  import opened Wrappers

  // ---------------------------------------------------------------- str.strip

  /** The characters Python's str.isspace accepts, which str.strip() removes. */
  predicate IsSpace(c: char) {
    var n := c as int;
    || n == 0x20 || 0x09 <= n <= 0x0D || 0x1C <= n <= 0x1F || n == 0x85 || n == 0xA0
    || n == 0x1680 || 0x2000 <= n <= 0x200A || n == 0x2028 || n == 0x2029
    || n == 0x202F || n == 0x205F || n == 0x3000
  }

  /** No whitespace at either end. */
  predicate Trimmed(s: string) {
    s == [] || (!IsSpace(s[0]) && !IsSpace(s[|s| - 1]))
  }

  ghost predicate AllSpace(s: string) {
    forall k | 0 <= k < |s| :: IsSpace(s[k])
  }

  /** Drop leading whitespace (TrimStartSpec says what remains). */
  function TrimStart(s: string): (r: string)
    ensures |r| <= |s|
  {
    if s != [] && IsSpace(s[0]) then TrimStart(s[1..]) else s
  }

  /** What TrimStart leaves is a suffix that starts with a non-space, after nothing but whitespace. */
  lemma {:induction false} TrimStartSpec(s: string)
    ensures var r := TrimStart(s);
      r == s[|s| - |r|..] && (r == [] || !IsSpace(r[0])) && AllSpace(s[..|s| - |r|])
    decreases |s|
  {
    if s != [] && IsSpace(s[0]) {
      var r := TrimStart(s[1..]);
      TrimStartSpec(s[1..]);
      assert s[1..][|s| - 1 - |r|..] == s[|s| - |r|..];
      var gap := s[..|s| - |r|];
      forall k | 0 <= k < |gap| ensures IsSpace(gap[k]) {
        if k > 0 { assert gap[k] == s[1..][..|s| - 1 - |r|][k - 1]; }
      }
    }
  }

  /** Drop trailing whitespace (TrimEndSpec says what remains). */
  function TrimEnd(s: string): (r: string)
    ensures |r| <= |s|
  {
    if s != [] && IsSpace(s[|s| - 1]) then TrimEnd(s[..|s| - 1]) else s
  }

  /** What TrimEnd leaves is a prefix that ends with a non-space, before nothing but whitespace. */
  lemma {:induction false} TrimEndSpec(s: string)
    ensures var r := TrimEnd(s);
      r == s[..|r|] && (r == [] || !IsSpace(r[|r| - 1])) && AllSpace(s[|r|..])
    decreases |s|
  {
    if s != [] && IsSpace(s[|s| - 1]) {
      var init := s[..|s| - 1];
      var r := TrimEnd(init);
      TrimEndSpec(init);
      assert init[..|r|] == s[..|r|];
      var gap := s[|r|..];
      forall k | 0 <= k < |gap| ensures IsSpace(gap[k]) {
        if k < |gap| - 1 { assert gap[k] == init[|r|..][k]; }
      }
    }
  }

  /** str.strip() with no argument: nothing it returns has whitespace at either end. */
  function Strip(s: string): (r: string)
    ensures Trimmed(r)
  {
    TrimStartSpec(s);
    TrimEndSpec(TrimStart(s));
    TrimEnd(TrimStart(s))
  }

  /**
   * Strip keeps one contiguous slice of s, starting at the first non-space,
   * and everything outside that slice is whitespace.
   */
  lemma StripSlice(s: string)
    ensures var i, r := |s| - |TrimStart(s)|, Strip(s);
      && i + |r| <= |s| && r == s[i..i + |r|]
      && AllSpace(s[..i]) && AllSpace(s[i + |r|..])
  {
    var t := TrimStart(s);
    TrimStartSpec(s);
    TrimEndSpec(t);
    var i, r := |s| - |t|, Strip(s);
    assert t == s[i..];
    assert r == t[..|r|];
    assert t[..|r|] == s[i..i + |r|];
    assert s[i + |r|..] == t[|r|..];
  }

  /** A string without whitespace at either end is its own strip. */
  lemma StripUnchanged(s: string)
    requires Trimmed(s)
    ensures Strip(s) == s
  {
    assert TrimStart(s) == s;
    assert TrimEnd(s) == s;
  }

  /** Stripping twice is stripping once. */
  lemma StripIdempotent(s: string)
    ensures Strip(Strip(s)) == Strip(s)
  {
    StripUnchanged(Strip(s));
  }

  lemma {:induction false} TrimStartSpaces(pad: string, t: string)
    requires AllSpace(pad) && (t == [] || !IsSpace(t[0]))
    ensures TrimStart(pad + t) == t
    decreases |pad|
  {
    if pad != [] {
      assert (pad + t)[1..] == pad[1..] + t;
      TrimStartSpaces(pad[1..], t);
    } else {
      assert pad + t == t;
    }
  }

  lemma {:induction false} TrimEndSpaces(t: string, pad: string)
    requires AllSpace(pad) && (t == [] || !IsSpace(t[|t| - 1]))
    ensures TrimEnd(t + pad) == t
    decreases |pad|
  {
    if pad != [] {
      assert (t + pad)[..|t + pad| - 1] == t + pad[..|pad| - 1];
      TrimEndSpaces(t, pad[..|pad| - 1]);
    } else {
      assert t + pad == t;
    }
  }

  /** Whitespace around a string without whitespace at its ends is exactly what strip removes. */
  lemma StripPadded(before: string, t: string, after: string)
    requires AllSpace(before) && AllSpace(after) && Trimmed(t)
    ensures Strip(before + t + after) == t
  {
    if t == [] {
      assert before + t + after == before + after;
      TrimStartSpaces(before + after, []);
      assert before + after + [] == before + after;
    } else {
      assert before + t + after == before + (t + after);
      TrimStartSpaces(before, t + after);
      TrimEndSpaces(t, after);
    }
  }

  // ---------------------------------------------------------------- vendor ids

  predicate EndsWithDotZero(s: string) {
    |s| >= 2 && s[|s| - 2..] == ".0"
  }

  /**
   * _normalize_vendor_id on str(value): a missing cell or one that strips to
   * nothing gives None; otherwise the stripped text, minus one trailing ".0".
   */
  function NormalizeVendorId(value: Option<string>): (r: Option<string>)
    ensures r.None? <==> value.None? || Strip(value.value) == []
    ensures r.Some? ==> r.value + (if EndsWithDotZero(Strip(value.value)) then ".0" else "") == Strip(value.value)
  {
    if value.None? then None
    else
      var s := Strip(value.value);
      if s == [] then None
      else if EndsWithDotZero(s) then
        assert s == s[..|s| - 2] + s[|s| - 2..];
        Some(s[..|s| - 2])
      else Some(s)
  }

  /**
   * An id padded with whitespace and carrying no ".0" normalises to the id
   * itself; one ending in ".0", as a float column prints "2" as "2.0",
   * loses that suffix.
   */
  lemma NormalizePadded(before: string, id: string, after: string)
    requires AllSpace(before) && AllSpace(after) && Trimmed(id) && id != []
    ensures !EndsWithDotZero(id) ==> NormalizeVendorId(Some(before + id + after)) == Some(id)
    ensures NormalizeVendorId(Some(before + id + ".0" + after)) == Some(id)
  {
    StripPadded(before, id, after);
    var dotted := id + ".0";
    assert dotted[|dotted| - 2..] == ".0" && dotted[..|dotted| - 2] == id;
    assert before + id + ".0" + after == before + dotted + after;
    StripPadded(before, dotted, after);
  }

  /**
   * Only one ".0" goes per call, so normalising is not idempotent:
   * "1.0.0" gives "1.0", and normalising that gives "1".
   */
  lemma NormalizeNotIdempotent(id: string)
    requires Trimmed(id) && id != []
    ensures NormalizeVendorId(Some(id + ".0.0")) == Some(id + ".0")
    ensures NormalizeVendorId(NormalizeVendorId(Some(id + ".0.0"))) == Some(id)
  {
    var once := id + ".0";
    assert id + ".0.0" == [] + once + ".0" + [];
    NormalizePadded([], once, []);
    assert once == [] + id + ".0" + [];
    NormalizePadded([], id, []);
  }

  /** An id that strips to ".0" normalises to the empty string, not to None. */
  lemma NormalizeDotZero(before: string, after: string)
    requires AllSpace(before) && AllSpace(after)
    ensures NormalizeVendorId(Some(before + ".0" + after)) == Some("")
  {
    var d := ".0";
    StripPadded(before, d, after);
    assert EndsWithDotZero(d) && d[..0] == "";
  }

  /** A non-empty normalised id starts with a non-space, so it does not strip to nothing. */
  lemma NormalizedStripsNonEmpty(value: Option<string>)
    requires NormalizeVendorId(value).Some? && NormalizeVendorId(value).value != []
    ensures var id := NormalizeVendorId(value).value;
      !IsSpace(id[0]) && Strip(id) != []
  {
    var id := NormalizeVendorId(value).value;
    var s := Strip(value.value);
    assert id[0] == s[0];
    assert TrimStart(id) == id;
    TrimEndSpec(id);
  }

  /**
   * The trailing ".0" can hide whitespace from the strip that came before
   * it: "1 .0" normalises to "1 ", which is not stripped, and which a second
   * strip turns into "1".
   */
  lemma NormalizeKeepsInnerSpace(id: string, pad: string)
    requires Trimmed(id) && id != [] && AllSpace(pad) && pad != []
    ensures NormalizeVendorId(Some(id + pad + ".0")) == Some(id + pad)
    ensures Strip(id + pad) == id && id + pad != id
  {
    var s := id + pad + ".0";
    assert Trimmed(s);
    StripUnchanged(s);
    assert s[|s| - 2..] == ".0" && s[..|s| - 2] == id + pad;
    assert id + pad == [] + id + pad;
    StripPadded([], id, pad);
    assert |id + pad| > |id|;
  }

  // ---------------------------------------------------------------- decimals

  /** A numeric cell of the extracted CSV: missing, text Decimal cannot parse, inf/nan, or a number. */
  datatype Cell = Missing | Unparsable | NonFinite | Number(value: real)

  function Abs(x: real): real { if x < 0.0 then -x else x }

  /**
   * _safe_decimal: the exact value of a finite number whose magnitude is at
   * most the cap (when there is one); None for everything else.
   */
  function SafeDecimal(cell: Cell, maxAbs: Option<real>): (r: Option<real>)
    ensures r.Some? <==> cell.Number? && (maxAbs.None? || Abs(cell.value) <= maxAbs.value)
    ensures r.Some? ==> r.value == cell.value
  {
    match cell
    case Missing => None
    case Unparsable => None
    case NonFinite => None
    case Number(dec) => if maxAbs.Some? && Abs(dec) > maxAbs.value then None else Some(dec)
  }

  /** A value that passed a cap passes any larger cap unchanged, and reading it again gives it back. */
  lemma SafeDecimalCapMonotone(cell: Cell, small: real, large: real)
    requires small <= large && SafeDecimal(cell, Some(small)).Some?
    ensures SafeDecimal(cell, Some(large)) == SafeDecimal(cell, Some(small))
    ensures SafeDecimal(Number(SafeDecimal(cell, Some(small)).value), Some(small)) == SafeDecimal(cell, Some(small))
  {}

  const MilesCap: real := 9999.99
  const HoursCap: real := 999.99
  const SpeedCap: real := 999.99
  const MoneyCap: real := 999999.99

  /** A row of the cleaned trip frame; the datetime columns are not modelled. */
  datatype TripRow = TripRow(
    vendorId: Option<string>,
    pickupId: Option<int>,
    dropoffId: Option<int>,
    tripMiles: Cell,
    tripDurationHours: Cell,
    averageSpeedMph: Cell,
    basePassengerFare: Cell,
    driverPay: Cell,
    totalExtraCharges: Cell,
    tripDuration: Option<int>)

  /** The Trip record load_trips builds from a row. */
  datatype TripRecord = TripRecord(
    vendorId: Option<string>,
    pickupId: int,
    dropoffId: int,
    tripMiles: Option<real>,
    tripDurationHours: Option<real>,
    averageSpeedMph: Option<real>,
    basePassengerFare: Option<real>,
    driverPay: Option<real>,
    totalExtraCharges: Option<real>,
    tripDuration: Option<int>)

  /** A row load_trips can turn into a record: int() needs both location ids; the vendor id may be None. */
  predicate Loadable(row: TripRow) {
    row.pickupId.Some? && row.dropoffId.Some?
  }

  predicate WithinCap(x: Option<real>, cap: real) {
    x.Some? ==> Abs(x.value) <= cap
  }

  /** The record of one row: each measurement is kept exactly when it is a finite number within its cap. */
  function ToRecord(row: TripRow): (t: TripRecord)
    requires Loadable(row)
    ensures t.vendorId == row.vendorId && t.pickupId == row.pickupId.value && t.dropoffId == row.dropoffId.value
    ensures WithinCap(t.tripMiles, MilesCap) && WithinCap(t.tripDurationHours, HoursCap) && WithinCap(t.averageSpeedMph, SpeedCap)
    ensures WithinCap(t.basePassengerFare, MoneyCap) && WithinCap(t.driverPay, MoneyCap) && WithinCap(t.totalExtraCharges, MoneyCap)
    ensures t.tripMiles.Some? <==> row.tripMiles.Number? && Abs(row.tripMiles.value) <= MilesCap
    ensures t.basePassengerFare.Some? <==> row.basePassengerFare.Number? && Abs(row.basePassengerFare.value) <= MoneyCap
  {
    TripRecord(
      row.vendorId,
      row.pickupId.value,
      row.dropoffId.value,
      SafeDecimal(row.tripMiles, Some(MilesCap)),
      SafeDecimal(row.tripDurationHours, Some(HoursCap)),
      SafeDecimal(row.averageSpeedMph, Some(SpeedCap)),
      SafeDecimal(row.basePassengerFare, Some(MoneyCap)),
      SafeDecimal(row.driverPay, Some(MoneyCap)),
      SafeDecimal(row.totalExtraCharges, Some(MoneyCap)),
      row.tripDuration)
  }

  // ---------------------------------------------------------------- load_data's row filter

  /** The vendor_id column after _normalize_vendor_id is applied to it. */
  function Normalized(row: TripRow): TripRow {
    row.(vendorId := NormalizeVendorId(row.vendorId))
  }

  /** The frame with every vendor id normalised, before any row is dropped. */
  function NormalizedFrame(raw: seq<TripRow>): (rows: seq<TripRow>)
    ensures |rows| == |raw|
    ensures forall i | 0 <= i < |raw| :: rows[i] == Normalized(raw[i])
  {
    seq(|raw|, i requires 0 <= i < |raw| => Normalized(raw[i]))
  }

  /** The rows load_data keeps: a vendor id and both location ids present, and a non-empty vendor id. */
  predicate Kept(row: TripRow) {
    row.vendorId.Some? && Loadable(row) && |row.vendorId.value| > 0
  }

  /** The dropna and length filters of load_data, which keep the order of the rows. */
  function KeepRows(rows: seq<TripRow>): (kept: seq<TripRow>)
    ensures |kept| <= |rows|
    ensures forall i | 0 <= i < |kept| :: Kept(kept[i])
  {
    if rows == [] then []
    else
      var rest := KeepRows(rows[..|rows| - 1]);
      var row := rows[|rows| - 1];
      if Kept(row) then rest + [row] else rest
  }

  /** A row survives the filters exactly when it passes them. */
  lemma {:induction false} KeepRowsMembers(rows: seq<TripRow>, row: TripRow)
    ensures row in KeepRows(rows) <==> Kept(row) && row in rows
    decreases |rows|
  {
    if rows != [] {
      var init, last := rows[..|rows| - 1], rows[|rows| - 1];
      KeepRowsMembers(init, row);
      assert rows == init + [last];
    }
  }

  /** The trip frame load_data hands to load_vendors and load_trips. */
  function CleanFrame(raw: seq<TripRow>): seq<TripRow> {
    KeepRows(NormalizedFrame(raw))
  }

  // ---------------------------------------------------------------- load_vendors

  /** Python's `<` on str: code point by code point, a proper prefix first. */
  predicate Below(a: string, b: string)
    decreases |a|
  {
    if a == [] then b != []
    else b != [] && (a[0] < b[0] || (a[0] == b[0] && Below(a[1..], b[1..])))
  }

  lemma {:induction false} BelowIrreflexive(a: string)
    ensures !Below(a, a)
    decreases |a|
  {
    if a != [] {
      BelowIrreflexive(a[1..]);
    }
  }

  lemma {:induction false} BelowTransitive(a: string, b: string, c: string)
    requires Below(a, b) && Below(b, c)
    ensures Below(a, c)
    decreases |a|
  {
    if a != [] && a[0] == b[0] && b[0] == c[0] {
      BelowTransitive(a[1..], b[1..], c[1..]);
    }
  }

  lemma {:induction false} BelowTotal(a: string, b: string)
    requires a != b
    ensures Below(a, b) || Below(b, a)
    decreases |a|
  {
    if a != [] && b != [] && a[0] == b[0] {
      assert a[1..] != b[1..] by {
        assert a == [a[0]] + a[1..] && b == [b[0]] + b[1..];
      }
      BelowTotal(a[1..], b[1..]);
    }
  }

  ghost predicate StrictlyAscending(s: seq<string>) {
    forall i, j | 0 <= i < j < |s| :: Below(s[i], s[j])
  }

  /** Add x to an ascending list of distinct ids, unless it is already there. */
  function InsertId(x: string, sorted: seq<string>): (r: seq<string>)
    ensures forall y :: y in r <==> y == x || y in sorted
    decreases |sorted|
  {
    if sorted == [] then [x]
    else if x == sorted[0] then sorted
    else if Below(x, sorted[0]) then [x] + sorted
    else [sorted[0]] + InsertId(x, sorted[1..])
  }

  lemma {:induction false} InsertIdAscending(x: string, sorted: seq<string>)
    requires StrictlyAscending(sorted)
    ensures StrictlyAscending(InsertId(x, sorted))
    decreases |sorted|
  {
    if sorted != [] && x != sorted[0] {
      if Below(x, sorted[0]) {
        forall j | 1 <= j < |sorted| ensures Below(x, sorted[j]) {
          BelowTransitive(x, sorted[0], sorted[j]);
        }
      } else {
        BelowTotal(x, sorted[0]);
        var tail := sorted[1..];
        assert StrictlyAscending(tail);
        InsertIdAscending(x, tail);
        var r := InsertId(x, tail);
        forall j | 0 <= j < |r| ensures Below(sorted[0], r[j]) {
          assert r[j] in r;
          if r[j] != x {
            var k :| 0 <= k < |tail| && tail[k] == r[j];
            assert tail[k] == sorted[k + 1];
          }
        }
      }
    }
  }

  /** sorted(set(ids)): the distinct ids in ascending order. */
  function SortDistinct(ids: seq<string>): (r: seq<string>)
    ensures forall y :: y in r <==> y in ids
  {
    if ids == [] then []
    else InsertId(ids[|ids| - 1], SortDistinct(ids[..|ids| - 1]))
  }

  lemma {:induction false} SortDistinctAscending(ids: seq<string>)
    ensures StrictlyAscending(SortDistinct(ids))
    decreases |ids|
  {
    if ids != [] {
      SortDistinctAscending(ids[..|ids| - 1]);
      InsertIdAscending(ids[|ids| - 1], SortDistinct(ids[..|ids| - 1]));
    }
  }

  /** The stripped, non-empty ids of the vendor_id column, missing cells dropped, in column order. */
  function PresentIds(column: seq<Option<string>>): (ids: seq<string>)
    ensures forall i | 0 <= i < |ids| :: ids[i] != []
  {
    if column == [] then []
    else
      var rest := PresentIds(column[..|column| - 1]);
      var cell := column[|column| - 1];
      if cell.Some? && Strip(cell.value) != [] then rest + [Strip(cell.value)] else rest
  }

  /** An id is present exactly when some non-missing cell strips to it. */
  lemma {:induction false} PresentIdsMembers(column: seq<Option<string>>, id: string)
    ensures id in PresentIds(column) <==>
      id != [] && exists i | 0 <= i < |column| :: column[i].Some? && Strip(column[i].value) == id
    decreases |column|
  {
    if column != [] {
      var init := column[..|column| - 1];
      PresentIdsMembers(init, id);
      if exists i | 0 <= i < |column| :: column[i].Some? && Strip(column[i].value) == id {
        var i :| 0 <= i < |column| && column[i].Some? && Strip(column[i].value) == id;
        if i < |column| - 1 {
          assert init[i] == column[i];
        }
      }
      if exists i | 0 <= i < |init| :: init[i].Some? && Strip(init[i].value) == id {
        var i :| 0 <= i < |init| && init[i].Some? && Strip(init[i].value) == id;
        assert column[i] == init[i];
      }
    }
  }

  const VendorNameMap: map<string, string> := map[
    "HV0002" := "Juno",
    "HV0003" := "Uber",
    "HV0004" := "Via",
    "HV0005" := "Lyft",
    "1" := "Creative Mobile Technologies (CMT)",
    "2" := "Curb Mobility",
    "6" := "Myle Technologies Inc",
    "7" := "Helix"]

  /** VENDOR_NAME_MAP.get(vendor_id) */
  function VendorNameOf(id: string): (name: Option<string>)
    ensures name.Some? <==> id in VendorNameMap
    ensures name.Some? ==> name.value == VendorNameMap[id]
  {
    if id in VendorNameMap then Some(VendorNameMap[id]) else None
  }

  datatype VendorRecord = VendorRecord(vendorId: string, vendorName: Option<string>)

  /** load_vendors: one record per distinct id, in sorted order, named from VENDOR_NAME_MAP. */
  function LoadVendors(column: seq<Option<string>>): (records: seq<VendorRecord>)
    ensures |records| == |SortDistinct(PresentIds(column))|
    ensures forall i | 0 <= i < |records| ::
      records[i] == VendorRecord(SortDistinct(PresentIds(column))[i], VendorNameOf(SortDistinct(PresentIds(column))[i]))
  {
    var ids := SortDistinct(PresentIds(column));
    seq(|ids|, i requires 0 <= i < |ids| => VendorRecord(ids[i], VendorNameOf(ids[i])))
  }

  /** The vendor records come in strictly ascending id order, so no id has two records. */
  lemma LoadVendorsAscending(column: seq<Option<string>>)
    ensures var records := LoadVendors(column);
      forall i, j | 0 <= i < j < |records| :: Below(records[i].vendorId, records[j].vendorId)
  {
    SortDistinctAscending(PresentIds(column));
  }

  /**
   * An id has a vendor record exactly when it is not empty and some
   * non-missing cell of the column strips to it.
   */
  lemma LoadVendorsMembers(column: seq<Option<string>>, id: string)
    ensures (exists r | r in LoadVendors(column) :: r.vendorId == id) <==>
      id != [] && exists i | 0 <= i < |column| :: column[i].Some? && Strip(column[i].value) == id
  {
    var ids := SortDistinct(PresentIds(column));
    var records := LoadVendors(column);
    PresentIdsMembers(column, id);
    if id in ids {
      var k :| 0 <= k < |ids| && ids[k] == id;
      assert records[k] in records;
    }
    if exists r | r in records :: r.vendorId == id {
      var r :| r in records && r.vendorId == id;
      var k :| 0 <= k < |records| && records[k] == r;
      assert ids[k] == id;
    }
  }

  /**
   * Every trip load_data keeps refers to a vendor record once its id is
   * stripped again: load_vendors strips the normalised ids a second time.
   */
  lemma KeptTripsHaveVendors(raw: seq<TripRow>, k: nat)
    requires k < |CleanFrame(raw)|
    ensures var rows := CleanFrame(raw);
      exists r | r in LoadVendors(VendorColumn(rows)) :: r.vendorId == Strip(rows[k].vendorId.value)
  {
    var rows := CleanFrame(raw);
    var column := VendorColumn(rows);
    var id := rows[k].vendorId.value;
    assert Kept(rows[k]);
    var normalized := NormalizedFrame(raw);
    assert rows[k] in KeepRows(normalized);
    KeepRowsMembers(normalized, rows[k]);
    var i :| 0 <= i < |raw| && normalized[i] == rows[k];
    NormalizedStripsNonEmpty(raw[i].vendorId);
    assert column[k].Some? && Strip(column[k].value) == Strip(id);
    LoadVendorsMembers(column, Strip(id));
  }

  /** The vendor_id column of a frame. */
  function VendorColumn(rows: seq<TripRow>): (column: seq<Option<string>>)
    ensures |column| == |rows|
    ensures forall i | 0 <= i < |rows| :: column[i] == rows[i].vendorId
  {
    seq(|rows|, i requires 0 <= i < |rows| => rows[i].vendorId)
  }

  // ---------------------------------------------------------------- load_trips

  /** The records of a frame, in row order. */
  function Records(rows: seq<TripRow>): (records: seq<TripRecord>)
    requires forall i | 0 <= i < |rows| :: Loadable(rows[i])
    ensures |records| == |rows|
    ensures forall i | 0 <= i < |rows| :: records[i] == ToRecord(rows[i])
  {
    seq(|rows|, i requires 0 <= i < |rows| => ToRecord(rows[i]))
  }

  /** The batches, written one after the other. */
  function Flatten(batches: seq<seq<TripRecord>>): seq<TripRecord> {
    if batches == [] then [] else Flatten(batches[..|batches| - 1]) + batches[|batches| - 1]
  }

  lemma FlattenSnoc(batches: seq<seq<TripRecord>>, batch: seq<TripRecord>)
    ensures Flatten(batches + [batch]) == Flatten(batches) + batch
  {
    assert (batches + [batch])[..|batches|] == batches;
  }

  /**
   * The size at which the batch is flushed: `len(batch) >= batch_size` holds
   * as soon as the batch reaches batch_size, and after every single row when
   * batch_size is not positive.
   */
  function FlushSize(batchSize: int): (n: nat)
    ensures n >= 1
    ensures batchSize >= 1 ==> n == batchSize
  {
    if batchSize >= 1 then batchSize else 1
  }

  /**
   * load_trips: each flush writes the pending batch and adds its size to the
   * total. All batches but the last hold FlushSize(batchSize) records, the
   * last at least one and at most that many, together they are the records
   * of all rows in order, and the total is the number of rows.
   */
  method LoadTrips(rows: seq<TripRow>, batchSize: int) returns (batches: seq<seq<TripRecord>>, total: nat)
    requires forall i | 0 <= i < |rows| :: Loadable(rows[i])
    ensures Flatten(batches) == Records(rows)
    ensures total == |rows|
    ensures forall k | 0 <= k < |batches| - 1 :: |batches[k]| == FlushSize(batchSize)
    ensures batches != [] ==> 1 <= |batches[|batches| - 1]| <= FlushSize(batchSize)
    ensures batches == [] <==> rows == []
  {
    ghost var records := Records(rows);
    batches, total := [], 0;
    var batch: seq<TripRecord> := [];
    var i := 0;
    while i < |rows|
      invariant Pending(records, i, batches, batch, total, FlushSize(batchSize))
    {
      LoadStep(records, i, batches, batch, total, batchSize);
      batch := batch + [ToRecord(rows[i])];
      if |batch| >= batchSize {
        batches := batches + [batch];
        total := total + |batch|;
        batch := [];
      }
      i := i + 1;
    }
    if batch != [] {
      FlattenSnoc(batches, batch);
      batches := batches + [batch];
      total := total + |batch|;
    }
    assert records[..i] == records;
  }

  /**
   * The state of load_trips after the first i rows: the written batches and
   * the pending one are those rows' records in order, the total counts what
   * was written, every written batch is full and the pending one is not.
   */
  ghost predicate Pending(records: seq<TripRecord>, i: int, batches: seq<seq<TripRecord>>, batch: seq<TripRecord>,
                          total: nat, size: nat) {
    && 0 <= i <= |records|
    && Flatten(batches) + batch == records[..i]
    && total == |Flatten(batches)|
    && (forall k | 0 <= k < |batches| :: |batches[k]| == size)
    && |batch| < size
    && (batches == [] && batch == [] ==> i == 0)
  }

  /** One row of load_trips: append its record, and flush once the batch is full. */
  lemma LoadStep(records: seq<TripRecord>, i: int, batches: seq<seq<TripRecord>>, batch: seq<TripRecord>,
                 total: nat, batchSize: int)
    requires Pending(records, i, batches, batch, total, FlushSize(batchSize)) && i < |records|
    ensures var grown := batch + [records[i]];
      if |grown| >= batchSize then Pending(records, i + 1, batches + [grown], [], total + |grown|, FlushSize(batchSize))
      else Pending(records, i + 1, batches, grown, total, FlushSize(batchSize))
  {
    var grown := batch + [records[i]];
    assert records[..i + 1] == records[..i] + [records[i]];
    FlattenSnoc(batches, grown);
  }
}
