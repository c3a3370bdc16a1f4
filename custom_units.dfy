/** Custom unit registration as the unit-of-measure package's registrar
    interface (packages/nexus-uom-management/src/Contracts/CustomUnitRegistrar.php)
    and its feature test
    (packages/nexus-uom-management/tests/Feature/CustomUnitRegistrationTest.php)
    describe it: a unit is keyed by its code and owner, may carry
    conversions to earlier units named by code, and factors are stored as
    fixed-point decimals with twelve fractional digits, here naturals scaled
    by 10^12. */
module CustomUnits {
  import opened Common

  const FractionDigits: nat := 12
  const Scale: nat := 1_000_000_000_000

  datatype Owner = Owner(ownerType: string, ownerId: int)

  datatype CustomUnit = CustomUnit(id: nat, code: string, name: string, uomTypeId: nat,
                                   conversionFactor: nat, owner: Option<Owner>)

  /** A directed conversion from `sourceId` to `targetId`. */
  datatype CustomConversion = CustomConversion(sourceId: nat, targetId: nat, factor: nat, isLinear: bool)

  datatype UnitAttributes = UnitAttributes(code: string, name: string, uomTypeId: nat, conversionFactor: string)

  /** One entry of `$customConversions`; `is_linear` may be omitted. */
  datatype ConversionRequest = ConversionRequest(target: string, factor: string, isLinear: Option<bool>)

  /** The reasons a `ConversionException` is raised. */
  datatype ConversionError = DuplicateUnitCode(code: string) | UnknownTarget(target: string) | InvalidFactor(text: string)

  // ----- fixed-point decimals

  function Pow10(k: nat): (p: nat)
    ensures p >= 1
  {
    if k == 0 then 1 else 10 * Pow10(k - 1)
  }

  predicate IsDigit(c: char)
  {
    '0' <= c <= '9'
  }

  predicate AllDigits(s: string)
  {
    forall k :: 0 <= k < |s| ==> IsDigit(s[k])
  }

  function DigitChar(d: nat): (c: char)
    requires d < 10
    ensures IsDigit(c)
  {
    ('0' as int + d) as char
  }

  function DigitValue(c: char): (d: nat)
    requires IsDigit(c)
    ensures d < 10
  {
    (c as int - '0' as int) as nat
  }

  /** `v` followed by `k` zeros, that is `v * 10^k`. */
  function Shift(v: nat, k: nat): (r: nat)
    ensures r >= v && (v == 0 ==> r == 0)
  {
    if k == 0 then v else 10 * Shift(v, k - 1)
  }

  /** The value of a string of decimal digits. */
  function DigitsValue(s: string): (v: nat)
    requires AllDigits(s)
    ensures v < Pow10(|s|)
  {
    if s == [] then 0 else DigitsValue(s[..|s| - 1]) * 10 + DigitValue(s[|s| - 1])
  }

  /** The shortest decimal writing of `n`. */
  function NatToDigits(n: nat): (s: string)
    ensures AllDigits(s) && |s| >= 1
  {
    if n < 10 then [DigitChar(n)] else NatToDigits(n / 10) + [DigitChar(n % 10)]
  }

  function Zeros(k: nat): (s: string)
    ensures |s| == k && AllDigits(s)
  {
    if k == 0 then [] else Zeros(k - 1) + ['0']
  }

  /** Left-pads with zeros to width `w`. */
  function PadLeft(s: string, w: nat): (r: string)
    requires AllDigits(s)
    ensures AllDigits(r) && |r| == if |s| >= w then |s| else w
  {
    if |s| >= w then s else Zeros(w - |s|) + s
  }

  /** The decimal text of a scaled value: the integer part, a dot and
      exactly twelve fractional digits. */
  function FormatDecimal(n: nat): (s: string)
  {
    NatToDigits(n / Scale) + "." + PadLeft(NatToDigits(n % Scale), FractionDigits)
  }

  /** The position of the first '.' in `s`. */
  function DotIndex(s: string): (r: Option<nat>)
    ensures r.Some? ==> r.value < |s| && s[r.value] == '.' && forall k :: 0 <= k < r.value ==> s[k] != '.'
    ensures r.None? ==> forall k :: 0 <= k < |s| ==> s[k] != '.'
  {
    if s == [] then None
    else if s[0] == '.' then Some(0)
    else match DotIndex(s[1..])
      case Some(k) => Some(k + 1)
      case None => None
  }

  /** Reads a non-negative decimal with at most twelve fractional digits
      ("4", "0.5", "4.000000000000") as a value scaled by 10^12. */
  function ParseDecimal(s: string): Option<nat>
  {
    match DotIndex(s)
    case None => ParseParts(s, "0")
    case Some(d) => ParseParts(s[..d], s[d + 1..])
  }

  /** The scaled value of a whole part and a fraction of one to twelve
      digits. */
  function ParseParts(whole: string, frac: string): (r: Option<nat>)
    ensures r.Some? ==> 1 <= |frac| <= FractionDigits
  {
    if whole != [] && AllDigits(whole) && frac != [] && |frac| <= FractionDigits && AllDigits(frac) then
      Some(DigitsValue(whole) * Scale + Shift(DigitsValue(frac), FractionDigits - |frac|))
    else None
  }

  /** A stored factor must be positive. */
  function ParseFactor(s: string): (r: Option<nat>)
    ensures r.Some? ==> r.value > 0 && ParseDecimal(s) == r
  {
    var p := ParseDecimal(s);
    if p.Some? && p.value > 0 then p else None
  }

  lemma {:induction false} NatToDigitsValue(n: nat)
    ensures DigitsValue(NatToDigits(n)) == n
  {
    if n >= 10 {
      NatToDigitsValue(n / 10);
      var s := NatToDigits(n);
      assert s[..|s| - 1] == NatToDigits(n / 10);
    }
  }

  lemma {:induction false} NatToDigitsLength(n: nat, k: nat)
    requires k >= 1 && n < Pow10(k)
    ensures |NatToDigits(n)| <= k
  {
    if n >= 10 {
      assert Pow10(1) == 10;
      assert k >= 2;
      assert n / 10 < Pow10(k - 1);
      NatToDigitsLength(n / 10, k - 1);
    }
  }

  lemma Pow10Fraction()
    ensures Pow10(FractionDigits) == Scale
  {
    assert Pow10(4) == 10000;
    assert Pow10(8) == 100000000;
  }

  lemma {:induction false} ZerosValue(k: nat, s: string)
    requires AllDigits(s)
    ensures DigitsValue(Zeros(k) + s) == DigitsValue(s)
    decreases |s|, k
  {
    if s == [] {
      assert Zeros(k) + s == Zeros(k);
      if k > 0 {
        ZerosValue(k - 1, []);
        assert Zeros(k - 1) + [] == Zeros(k - 1);
        assert Zeros(k)[..k - 1] == Zeros(k - 1);
      }
    } else {
      var init := s[..|s| - 1];
      ZerosValue(k, init);
      assert (Zeros(k) + s)[..|Zeros(k) + s| - 1] == Zeros(k) + init;
    }
  }

  lemma NoDotInDigits(s: string)
    requires AllDigits(s)
    ensures DotIndex(s).None?
  {
    assert forall k :: 0 <= k < |s| ==> s[k] != '.' by {
      forall k | 0 <= k < |s| ensures s[k] != '.' {
        assert IsDigit(s[k]);
      }
    }
  }

  lemma {:induction false} DotIndexAfterDigits(whole: string, rest: string)
    requires AllDigits(whole)
    ensures DotIndex(whole + "." + rest) == Some(|whole|)
  {
    var s := whole + "." + rest;
    var r := DotIndex(s);
    assert s[|whole|] == '.';
    assert forall k :: 0 <= k < |whole| ==> s[k] == whole[k] && s[k] != '.' by {
      forall k | 0 <= k < |whole| ensures s[k] == whole[k] && s[k] != '.' {
        assert IsDigit(whole[k]);
      }
    }
    assert r.Some?;
    assert r.value == |whole|;
  }

  /** A dot-separated pair of digit strings reads as whole part and
      fraction. */
  lemma ParseSplit(whole: string, frac: string)
    requires whole != [] && AllDigits(whole) && AllDigits(frac) && 1 <= |frac| <= FractionDigits
    ensures ParseDecimal(whole + "." + frac) == ParseParts(whole, frac)
  {
    var s := whole + "." + frac;
    DotIndexAfterDigits(whole, frac);
    assert s[..|whole|] == whole;
    assert s[|whole| + 1..] == frac;
  }

  /** A fraction of exactly twelve digits needs no scaling. */
  lemma ParseFullFraction(whole: string, frac: string)
    requires whole != [] && AllDigits(whole) && AllDigits(frac) && |frac| == FractionDigits
    ensures ParseParts(whole, frac) == Some(DigitsValue(whole) * Scale + DigitsValue(frac))
  {
    assert Shift(DigitsValue(frac), 0) == DigitsValue(frac);
  }

  /** The stored text is the integer part, a dot and the twelve-digit
      padded remainder, whose digits read back as quotient and remainder. */
  lemma FormatParts(n: nat) returns (whole: string, frac: string)
    ensures FormatDecimal(n) == whole + "." + frac
    ensures whole != [] && AllDigits(whole) && |frac| == FractionDigits && AllDigits(frac)
    ensures DigitsValue(whole) * Scale + DigitsValue(frac) == n
  {
    var q, m := n / Scale, n % Scale;
    assert q * Scale + m == n;
    var fracDigits := NatToDigits(n % Scale);
    Pow10Fraction();
    NatToDigitsLength(n % Scale, FractionDigits);
    NatToDigitsValue(n / Scale);
    NatToDigitsValue(n % Scale);
    ZerosValue(FractionDigits - |fracDigits|, fracDigits);
    whole, frac := NatToDigits(q), PadLeft(fracDigits, FractionDigits);
  }

  /** A whole part, a dot and twelve fractional digits read back as their
      digit values. */
  lemma ReadBack(whole: string, frac: string)
    requires whole != [] && AllDigits(whole) && AllDigits(frac) && |frac| == FractionDigits
    ensures ParseDecimal(whole + "." + frac) == Some(DigitsValue(whole) * Scale + DigitsValue(frac))
  {
    ParseSplit(whole, frac);
    ParseFullFraction(whole, frac);
  }

  /** Reading back the stored text gives the stored value. */
  lemma FormatParseRoundTrip(n: nat)
    ensures ParseDecimal(FormatDecimal(n)) == Some(n)
  {
    var whole, frac := FormatParts(n);
    ReadBack(whole, frac);
  }

  /** The factor "4" is read as 4 * 10^12. */
  lemma FactorFourParsed()
    ensures ParseFactor("4") == Some(4 * Scale)
  {
    NoDotInDigits("4");
    assert "4"[..0] == [] && "0"[..0] == [];
    assert DigitsValue("4") == 4 && DigitsValue("0") == 0;
    assert ParseParts("4", "0") == Some(4 * Scale);
  }

  /** The value 4 * 10^12 is written "4.000000000000". */
  lemma FactorFourWritten()
    ensures FormatDecimal(4 * Scale) == "4.000000000000"
  {
    var q, m := 4 * Scale / Scale, 4 * Scale % Scale;
    assert q == 4 && m == 0;
    assert NatToDigits(4) == "4" && NatToDigits(0) == "0";
    ZeroFraction();
  }

  /** A zero remainder is written as twelve zeros. */
  lemma ZeroFraction()
    ensures PadLeft("0", FractionDigits) == "000000000000"
  {
    assert Zeros(11) == "00000000000";
  }

  // ----- units and conversions

  /** Some existing unit of the owner already uses the code. */
  predicate CodeTaken(units: seq<CustomUnit>, code: string, owner: Option<Owner>)
  {
    exists k :: 0 <= k < |units| && units[k].code == code && units[k].owner == owner
  }

  /** At most one unit per (code, owner). */
  predicate CodesUnique(units: seq<CustomUnit>)
  {
    forall i, j :: 0 <= i < j < |units| ==> !(units[i].code == units[j].code && units[i].owner == units[j].owner)
  }

  /** The position of the owner's unit with the given code. */
  function FindUnit(units: seq<CustomUnit>, code: string, owner: Option<Owner>): (r: Option<nat>)
    ensures r.Some? ==> r.value < |units| && units[r.value].code == code && units[r.value].owner == owner
    ensures r.None? <==> !CodeTaken(units, code, owner)
    decreases |units|
  {
    if units == [] then None
    else if units[0].code == code && units[0].owner == owner then Some(0)
    else match FindUnit(units[1..], code, owner)
      case Some(k) => Some(k + 1)
      case None =>
        assert forall k :: 1 <= k < |units| ==> units[k] == units[1..][k - 1];
        None
  }

  /** The conversion edges requested, from the new unit `sourceId` to the
      owner's existing units, or the first request that cannot be honoured. */
  function Plan(units: seq<CustomUnit>, owner: Option<Owner>, sourceId: nat, requests: seq<ConversionRequest>)
    : (r: Result<seq<CustomConversion>, ConversionError>)
    ensures r.Ok? ==> |r.value| == |requests|
    ensures r.Ok? ==> forall k :: 0 <= k < |r.value| ==> r.value[k].sourceId == sourceId
  {
    if requests == [] then Ok([])
    else
      var init := requests[..|requests| - 1];
      var req := requests[|requests| - 1];
      match Plan(units, owner, sourceId, init)
      case Err(e) => Err(e)
      case Ok(edges) =>
        match Edge(units, owner, sourceId, req)
        case Err(e) => Err(e)
        case Ok(edge) => Ok(edges + [edge])
  }

  /** One conversion edge: the target is the owner's unit with that code. */
  function Edge(units: seq<CustomUnit>, owner: Option<Owner>, sourceId: nat, req: ConversionRequest)
    : (r: Result<CustomConversion, ConversionError>)
    ensures r.Ok? <==> CodeTaken(units, req.target, owner) && ParseFactor(req.factor).Some?
    ensures r.Ok? ==> r.value.sourceId == sourceId && Some(r.value.factor) == ParseFactor(req.factor)
    ensures r.Ok? ==> exists k :: 0 <= k < |units| && units[k].id == r.value.targetId &&
                                  units[k].code == req.target && units[k].owner == owner
  {
    match FindUnit(units, req.target, owner)
    case None => Err(UnknownTarget(req.target))
    case Some(k) =>
      match ParseFactor(req.factor)
      case None => Err(InvalidFactor(req.factor))
      case Some(f) => Ok(CustomConversion(sourceId, units[k].id, f, req.isLinear == Some(true)))
  }

  /** `register`: the new unit with id `newId` and its conversion edges, or
      the reason for refusing. A (code, owner) already in use is checked
      first, then the unit's factor, then each conversion in order. */
  function Registration(units: seq<CustomUnit>, newId: nat, attrs: UnitAttributes, owner: Option<Owner>,
                        requests: seq<ConversionRequest>)
    : (r: Result<(CustomUnit, seq<CustomConversion>), ConversionError>)
    ensures r.Ok? <==> !CodeTaken(units, attrs.code, owner) && ParseFactor(attrs.conversionFactor).Some? &&
                       Plan(units, owner, newId, requests).Ok?
    ensures CodeTaken(units, attrs.code, owner) ==> r == Err(DuplicateUnitCode(attrs.code))
    ensures !CodeTaken(units, attrs.code, owner) && ParseFactor(attrs.conversionFactor).None? ==>
              r == Err(InvalidFactor(attrs.conversionFactor))
    ensures (!CodeTaken(units, attrs.code, owner) && ParseFactor(attrs.conversionFactor).Some? &&
             Plan(units, owner, newId, requests).Err?) ==> r == Err(Plan(units, owner, newId, requests).error)
    ensures r.Ok? ==> r.value.0.code == attrs.code && r.value.0.owner == owner && r.value.0.id == newId
    ensures r.Ok? ==> Some(r.value.0.conversionFactor) == ParseFactor(attrs.conversionFactor)
    ensures r.Ok? ==> Plan(units, owner, newId, requests) == Ok(r.value.1)
  {
    if CodeTaken(units, attrs.code, owner) then Err(DuplicateUnitCode(attrs.code))
    else match ParseFactor(attrs.conversionFactor)
      case None => Err(InvalidFactor(attrs.conversionFactor))
      case Some(f) =>
        match Plan(units, owner, newId, requests)
        case Err(e) => Err(e)
        case Ok(edges) => Ok((CustomUnit(newId, attrs.code, attrs.name, attrs.uomTypeId, f, owner), edges))
  }

  class CustomUnitRegistrar {
    var units: seq<CustomUnit>
    var conversions: seq<CustomConversion>
    var nextId: nat

    ghost predicate Valid()
      reads this
    {
      CodesUnique(units) && forall k :: 0 <= k < |units| ==> units[k].id < nextId
    }

    constructor ()
      ensures Valid() && units == [] && conversions == [] && nextId == 1
    {
      units := [];
      conversions := [];
      nextId := 1;
    }

    /** Registers a unit and its conversions in one transaction: on any
        error nothing is stored. */
    method Register(attrs: UnitAttributes, owner: Option<Owner>, requests: seq<ConversionRequest>)
      returns (r: Result<CustomUnit, ConversionError>)
      requires Valid()
      modifies this
      ensures Valid()
      ensures var spec := Registration(old(units), old(nextId), attrs, owner, requests);
        if spec.Err? then
          r == Err(spec.error) && units == old(units) && conversions == old(conversions) && nextId == old(nextId)
        else
          r == Ok(spec.value.0) && units == old(units) + [spec.value.0] &&
          conversions == old(conversions) + spec.value.1 && nextId == old(nextId) + 1
    {
      if FindUnit(units, attrs.code, owner).Some? {
        return Err(DuplicateUnitCode(attrs.code));
      }
      var factor := ParseFactor(attrs.conversionFactor);
      if factor.None? {
        return Err(InvalidFactor(attrs.conversionFactor));
      }
      var planned := PlanEdges(units, owner, nextId, requests);
      if planned.Err? {
        return Err(planned.error);
      }
      var u := CustomUnit(nextId, attrs.code, attrs.name, attrs.uomTypeId, factor.value, owner);
      AppendKeepsCodesUnique(units, u);
      units := units + [u];
      conversions := conversions + planned.value;
      nextId := nextId + 1;
      r := Ok(u);
    }
  }

  /** The loop over the requested conversions, stopping at the first that
      cannot be honoured. */
  method PlanEdges(units: seq<CustomUnit>, owner: Option<Owner>, sourceId: nat, requests: seq<ConversionRequest>)
    returns (r: Result<seq<CustomConversion>, ConversionError>)
    ensures r == Plan(units, owner, sourceId, requests)
  {
    var edges: seq<CustomConversion> := [];
    var i := 0;
    while i < |requests|
      invariant 0 <= i <= |requests|
      invariant Plan(units, owner, sourceId, requests[..i]) == Ok(edges)
    {
      var e := Edge(units, owner, sourceId, requests[i]);
      PlanStep(units, owner, sourceId, requests, i, edges);
      if e.Err? {
        return Err(e.error);
      }
      edges := edges + [e.value];
      i := i + 1;
    }
    assert requests[..|requests|] == requests;
    r := Ok(edges);
  }

  /** Planning one request more extends the edges of the shorter prefix
      by that request's edge, or stops at its error. */
  lemma PlanExtend(units: seq<CustomUnit>, owner: Option<Owner>, sourceId: nat,
                   requests: seq<ConversionRequest>, i: nat, edges: seq<CustomConversion>)
    requires i < |requests| && Plan(units, owner, sourceId, requests[..i]) == Ok(edges)
    ensures var e := Edge(units, owner, sourceId, requests[i]);
      Plan(units, owner, sourceId, requests[..i + 1]) == if e.Ok? then Ok(edges + [e.value]) else Err(e.error)
  {
    assert requests[..i + 1][..i] == requests[..i];
  }

  /** One iteration of `PlanEdges`: a request that cannot be honoured
      decides the whole plan, one that can extends the edges. */
  lemma PlanStep(units: seq<CustomUnit>, owner: Option<Owner>, sourceId: nat,
                 requests: seq<ConversionRequest>, i: nat, edges: seq<CustomConversion>)
    requires i < |requests| && Plan(units, owner, sourceId, requests[..i]) == Ok(edges)
    ensures var e := Edge(units, owner, sourceId, requests[i]);
      (e.Err? ==> Plan(units, owner, sourceId, requests) == Err(e.error)) &&
      (e.Ok? ==> Plan(units, owner, sourceId, requests[..i + 1]) == Ok(edges + [e.value]))
  {
    PlanExtend(units, owner, sourceId, requests, i, edges);
    if Edge(units, owner, sourceId, requests[i]).Err? {
      PlanFailsFrom(units, owner, sourceId, requests, i + 1);
    }
  }

  /** Appending a unit whose (code, owner) is free keeps them unique. */
  lemma AppendKeepsCodesUnique(units: seq<CustomUnit>, u: CustomUnit)
    requires CodesUnique(units) && !CodeTaken(units, u.code, u.owner)
    ensures CodesUnique(units + [u])
  {
    var r := units + [u];
    forall i, j | 0 <= i < j < |r| ensures !(r[i].code == r[j].code && r[i].owner == r[j].owner) {
      assert r[i] == units[i];
    }
  }

  /** Once a prefix of the requests cannot be planned, no longer prefix can. */
  lemma {:induction false} PlanFailsFrom(units: seq<CustomUnit>, owner: Option<Owner>, sourceId: nat,
                                         requests: seq<ConversionRequest>, i: nat)
    requires i <= |requests| && Plan(units, owner, sourceId, requests[..i]).Err?
    ensures Plan(units, owner, sourceId, requests) == Plan(units, owner, sourceId, requests[..i])
    decreases |requests| - i
  {
    if i < |requests| {
      assert requests[..i + 1][..i] == requests[..i];
      PlanFailsFrom(units, owner, sourceId, requests, i + 1);
    } else {
      assert requests[..i] == requests;
    }
  }

  // ----- properties

  /** A fresh (code, owner) with a readable factor and no conversions is
      registered. */
  lemma FreshCodeRegisters(units: seq<CustomUnit>, newId: nat, attrs: UnitAttributes, owner: Option<Owner>)
    requires !CodeTaken(units, attrs.code, owner) && ParseFactor(attrs.conversionFactor).Some?
    ensures Registration(units, newId, attrs, owner, []).Ok?
  {
  }

  /** Registering the same code for the same owner again is refused. */
  lemma {:induction false} SecondRegistrationRefused(units: seq<CustomUnit>, newId: nat, attrs: UnitAttributes,
                                                     owner: Option<Owner>, requests: seq<ConversionRequest>,
                                                     laterId: nat, attrs2: UnitAttributes,
                                                     requests2: seq<ConversionRequest>)
    requires Registration(units, newId, attrs, owner, requests).Ok?
    requires attrs2.code == attrs.code
    ensures var u := Registration(units, newId, attrs, owner, requests).value.0;
      Registration(units + [u], laterId, attrs2, owner, requests2) == Err(DuplicateUnitCode(attrs.code))
  {
    var u := Registration(units, newId, attrs, owner, requests).value.0;
    var after := units + [u];
    assert after[|units|] == u;
    assert CodeTaken(after, attrs2.code, owner);
  }

  /** A code held only by other owners does not block the owner. */
  lemma {:induction false} OtherOwnerNotBlocked(units: seq<CustomUnit>, attrs: UnitAttributes, owner: Option<Owner>,
                                                newId: nat)
    requires forall k :: 0 <= k < |units| && units[k].code == attrs.code ==> units[k].owner != owner
    requires ParseFactor(attrs.conversionFactor).Some?
    ensures Registration(units, newId, attrs, owner, []).Ok?
  {
    assert !CodeTaken(units, attrs.code, owner);
  }

  /** A unit registered for one owner changes nothing about what another
      owner may register without conversions. */
  lemma {:induction false} OtherOwnerUnaffected(units: seq<CustomUnit>, newId: nat, attrs: UnitAttributes,
                                                owner: Option<Owner>, requests: seq<ConversionRequest>,
                                                laterId: nat, attrs2: UnitAttributes, owner2: Option<Owner>)
    requires Registration(units, newId, attrs, owner, requests).Ok? && owner2 != owner
    ensures var u := Registration(units, newId, attrs, owner, requests).value.0;
      Registration(units + [u], laterId, attrs2, owner2, []) == Registration(units, laterId, attrs2, owner2, [])
  {
    var u := Registration(units, newId, attrs, owner, requests).value.0;
    var after := units + [u];
    assert forall k :: 0 <= k < |units| ==> after[k] == units[k];
    assert after[|units|] == u;
    assert CodeTaken(after, attrs2.code, owner2) <==> CodeTaken(units, attrs2.code, owner2);
  }

  /** Each registered edge runs from the new unit to the owner's unit named
      by the request's target. */
  lemma {:induction false} EdgesFollowRequests(units: seq<CustomUnit>, owner: Option<Owner>, sourceId: nat,
                                               requests: seq<ConversionRequest>, k: nat)
    requires Plan(units, owner, sourceId, requests).Ok? && k < |requests|
    ensures var e := Plan(units, owner, sourceId, requests).value[k];
      e.sourceId == sourceId && Some(e.factor) == ParseFactor(requests[k].factor) &&
      exists j :: 0 <= j < |units| && units[j].id == e.targetId &&
                  units[j].code == requests[k].target && units[j].owner == owner
    decreases |requests|
  {
    var init := requests[..|requests| - 1];
    var edges := Plan(units, owner, sourceId, init).value;
    if k < |requests| - 1 {
      EdgesFollowRequests(units, owner, sourceId, init, k);
      assert init[k] == requests[k];
      assert Plan(units, owner, sourceId, requests).value[k] == edges[k];
    }
  }

  /** The factors "0.5" and "2" of the feature test are accepted. */
  lemma HalfAndTwoAccepted()
    ensures ParseFactor("0.5").Some? && ParseFactor("2").Some?
  {
    var half := "0.5";
    assert half[0] != '.' && half[1] == '.';
    assert DotIndex(half) == Some(1);
    assert half[..1] == "0" && half[2..] == "5";
    assert "0"[..0] == [] && "5"[..0] == [] && "2"[..0] == [];
    assert DigitsValue("5") == 5;
    NoDotInDigits("2");
    assert DigitsValue("2") == 2;
  }

  /** The feature test's scenario: "BX" with factor "0.5" and no owner is
      registered, then "CR" with factor "2" and a conversion to "BX" with
      factor "4"; the single edge runs from CR to BX and is stored as
      "4.000000000000". */
  lemma {:induction false} FeatureScenario(massType: nat)
    ensures var bx := Registration([], 1, UnitAttributes("BX", "Box", massType, "0.5"), None, []);
      bx.Ok? &&
      var cr := Registration([bx.value.0], 2, UnitAttributes("CR", "Crate", massType, "2"), None,
                             [ConversionRequest("BX", "4", Some(true))]);
      cr.Ok? && |cr.value.1| == 1 && cr.value.1[0].sourceId == cr.value.0.id &&
      cr.value.1[0].targetId == bx.value.0.id && FormatDecimal(cr.value.1[0].factor) == "4.000000000000"
  {
    HalfAndTwoAccepted();
    FactorFourParsed();
    FactorFourWritten();
    var bx := Registration([], 1, UnitAttributes("BX", "Box", massType, "0.5"), None, []).value.0;
    assert FindUnit([bx], "BX", None) == Some(0);
    var reqs := [ConversionRequest("BX", "4", Some(true))];
    assert reqs[..|reqs| - 1] == [];
    assert bx.id == 1;
    assert Edge([bx], None, 2, reqs[0]) == Ok(CustomConversion(2, 1, 4 * Scale, true));
    assert Plan([bx], None, 2, []) == Ok([]);
    assert [] + [CustomConversion(2, 1, 4 * Scale, true)] == [CustomConversion(2, 1, 4 * Scale, true)];
    assert Plan([bx], None, 2, reqs) == Ok([CustomConversion(2, 1, 4 * Scale, true)]);
  }
}
