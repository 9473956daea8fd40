/**
 * The cost buildup at the start of `calculateProForma`: derived areas, the site
 * area, the site-less-building area and the tenant-improvement (TI) total.
 * Quantities are exact reals; areas are in square feet, rates in dollars per
 * square foot, percentages on the 0..100 scale.
 */
module Calculations {
  import opened Wrappers

  /** Square feet in one acre. */
  const SqFtPerAcre: real := 43560.0

  /** The property type id whose TI is priced on the whole building. */
  const OfficeId: string := "office"

  datatype Tenant = Tenant(name: string, sqft: real, rentPerSF: real, tiPerSF: real)

  /** A property type as chosen in the type selector. */
  datatype PropertyType = PropertyType(id: string, name: string)

  /**
   * The fields of a project that the cost buildup reads. A project of one
   * property type may lack the tenant list altogether (the office preset does).
   */
  datatype ProjectData = ProjectData(
    grossSquareFeet: real,
    rentablePercent: real,
    useablePercent: real,
    landAcres: real,
    officeTIPerSF: real,
    tenants: Option<seq<Tenant>>)

  /** Exactly the four values `calculateProForma` returns. */
  datatype ProForma = ProForma(rentableSF: real, useableSF: real, siteAreaSF: real, totalTI: real)

  /** Reading the tenant list of a project that has none raises a TypeError. */
  datatype CalcError = TenantsMissing

  // ---------------------------------------------------------------------------
  // Derived areas

  /** `area` scaled by `percent` percent, grouped as `area * (percent / 100)`. */
  function PercentOf(area: real, percent: real): (r: real)
    ensures percent == 0.0 ==> r == 0.0
    ensures percent == 100.0 ==> r == area
    ensures 0.0 <= area && 0.0 <= percent <= 100.0 ==> 0.0 <= r <= area
  {
    area * (percent / 100.0)
  }

  function RentableSF(p: ProjectData): (r: real)
    ensures 0.0 <= p.grossSquareFeet && 0.0 <= p.rentablePercent <= 100.0 ==> 0.0 <= r <= p.grossSquareFeet
    ensures p.rentablePercent == 100.0 ==> r == p.grossSquareFeet
  {
    PercentOf(p.grossSquareFeet, p.rentablePercent)
  }

  function UseableSF(p: ProjectData): (r: real)
    ensures 0.0 <= p.grossSquareFeet && 0.0 <= p.useablePercent <= 100.0 ==> 0.0 <= r <= p.grossSquareFeet
    ensures p.useablePercent == 100.0 ==> r == p.grossSquareFeet
  {
    PercentOf(p.grossSquareFeet, p.useablePercent)
  }

  /** On a building of positive gross area, a larger percentage never gives a smaller area, and conversely. */
  lemma PercentOfMonotone(area: real, p1: real, p2: real)
    requires 0.0 < area
    ensures PercentOf(area, p1) <= PercentOf(area, p2) <==> p1 <= p2
  {
    var d := p2 / 100.0 - p1 / 100.0;
    assert PercentOf(area, p2) - PercentOf(area, p1) == area * d;
    ProductSign(area, d);
    assert p1 <= p2 <==> 0.0 <= d;
  }

  /** Multiplying by a positive factor keeps the sign of the other factor. */
  lemma ProductSign(a: real, d: real)
    requires 0.0 < a
    ensures 0.0 <= a * d <==> 0.0 <= d
  {
  }

  /** Rentable area is at most useable area exactly when its percentage is. */
  lemma RentableAtMostUseable(p: ProjectData)
    requires 0.0 < p.grossSquareFeet
    ensures RentableSF(p) <= UseableSF(p) <==> p.rentablePercent <= p.useablePercent
  {
    PercentOfMonotone(p.grossSquareFeet, p.rentablePercent, p.useablePercent);
  }

  // ---------------------------------------------------------------------------
  // Site area

  /** The land area converted from acres to square feet. */
  function SiteAreaSF(p: ProjectData): (r: real)
    ensures r == 0.0 <==> p.landAcres == 0.0
    ensures 0.0 <= r <==> 0.0 <= p.landAcres
    ensures r / SqFtPerAcre == p.landAcres
  {
    p.landAcres * SqFtPerAcre
  }

  /** The conversion is strictly monotone: more land never gives less site area, and conversely. */
  lemma SiteAreaMonotone(p: ProjectData, q: ProjectData)
    ensures SiteAreaSF(p) <= SiteAreaSF(q) <==> p.landAcres <= q.landAcres
    ensures SiteAreaSF(p) == SiteAreaSF(q) <==> p.landAcres == q.landAcres
  {
  }

  /** The conversion is additive and homogeneous in acres. */
  lemma SiteAreaLinear(p: ProjectData, a: real, b: real, k: real)
    ensures SiteAreaSF(p.(landAcres := a + b)) == SiteAreaSF(p.(landAcres := a)) + SiteAreaSF(p.(landAcres := b))
    ensures SiteAreaSF(p.(landAcres := k * a)) == k * SiteAreaSF(p.(landAcres := a))
  {
  }

  /**
   * The site area left over once the building's gross area is taken out.
   * `calculateProForma` computes it but does not return it.
   */
  function SiteLessBuildingSF(p: ProjectData): (r: real)
    ensures 0.0 <= r <==> p.grossSquareFeet <= SiteAreaSF(p)
    ensures r <= SiteAreaSF(p) <==> 0.0 <= p.grossSquareFeet
    ensures r + p.grossSquareFeet == SiteAreaSF(p)
  {
    SiteAreaSF(p) - p.grossSquareFeet
  }

  // ---------------------------------------------------------------------------
  // Tenant improvements

  /** One tenant's TI: its area times its TI rate. */
  function TenantTI(t: Tenant): (r: real)
    ensures 0.0 <= t.sqft && 0.0 <= t.tiPerSF ==> 0.0 <= r
    ensures t.sqft == 0.0 || t.tiPerSF == 0.0 ==> r == 0.0
  {
    t.sqft * t.tiPerSF
  }

  /**
   * `tenants.reduce((sum, tenant) => sum + tenant.sqft * tenant.tiPerSF, acc)`:
   * the callback is applied left to right, starting from `acc`.
   */
  function ReduceTI(acc: real, ts: seq<Tenant>): (r: real)
    ensures ts == [] ==> r == acc
    ensures (forall i :: 0 <= i < |ts| ==> 0.0 <= TenantTI(ts[i])) ==> acc <= r
    decreases |ts|
  {
    if ts == [] then acc else ReduceTI(acc + TenantTI(ts[0]), ts[1..])
  }

  /** The reference definition: the structural sum of the tenants' TI. */
  function SumTI(ts: seq<Tenant>): real
    decreases |ts|
  {
    if ts == [] then 0.0 else TenantTI(ts[0]) + SumTI(ts[1..])
  }

  /** The reduce adds the tenants' TI total to its starting value. */
  lemma {:induction false} ReduceIsSum(acc: real, ts: seq<Tenant>)
    ensures ReduceTI(acc, ts) == acc + SumTI(ts)
    decreases |ts|
  {
    if ts != [] {
      ReduceIsSum(acc + TenantTI(ts[0]), ts[1..]);
    }
  }

  /** The TI of a concatenation is the sum of the parts' TI. */
  lemma {:induction false} SumTIConcat(a: seq<Tenant>, b: seq<Tenant>)
    ensures SumTI(a + b) == SumTI(a) + SumTI(b)
    decreases |a|
  {
    if a == [] {
      assert a + b == b;
    } else {
      assert (a + b)[1..] == a[1..] + b;
      SumTIConcat(a[1..], b);
    }
  }

  /** No tenants, no TI. */
  lemma SumTIEmpty()
    ensures SumTI([]) == 0.0 && ReduceTI(0.0, []) == 0.0
  {
  }

  /** Adding a tenant at the end of the list adds exactly that tenant's TI. */
  lemma SumTIAppend(ts: seq<Tenant>, t: Tenant)
    ensures SumTI(ts + [t]) == SumTI(ts) + t.sqft * t.tiPerSF
    ensures ReduceTI(0.0, ts + [t]) == ReduceTI(0.0, ts) + t.sqft * t.tiPerSF
  {
    SumTIConcat(ts, [t]);
    assert SumTI([t]) == TenantTI(t) + SumTI([]);
    ReduceIsSum(0.0, ts + [t]);
    ReduceIsSum(0.0, ts);
  }

  /** Taking the tenant at index `i` out of a list removes one copy of it from the list's multiset. */
  lemma {:induction false} MultisetRemoveAt(b: seq<Tenant>, i: nat)
    requires i < |b|
    ensures multiset(b[..i] + b[i + 1..]) == multiset(b) - multiset{b[i]}
  {
    assert b == b[..i] + [b[i]] + b[i + 1..];
    assert multiset(b) == multiset(b[..i]) + multiset{b[i]} + multiset(b[i + 1..]);
  }

  /** Taking the tenant at index `i` out of a list removes exactly its TI from the total. */
  lemma {:induction false} SumTIRemoveAt(b: seq<Tenant>, i: nat)
    requires i < |b|
    ensures SumTI(b) == TenantTI(b[i]) + SumTI(b[..i] + b[i + 1..])
  {
    var left, right := b[..i], b[i + 1..];
    assert b == left + [b[i]] + right;
    SumTIConcat(left + [b[i]], right);
    SumTIConcat(left, [b[i]]);
    SumTIConcat(left, right);
    assert SumTI([b[i]]) == TenantTI(b[i]) + SumTI([]);
  }

  /** A list with the same multiset as `a` holds `a`'s first tenant somewhere; without it, the rest match too. */
  lemma {:induction false} MatchFirst(a: seq<Tenant>, b: seq<Tenant>) returns (i: nat)
    requires a != [] && multiset(a) == multiset(b)
    ensures i < |b| && b[i] == a[0]
    ensures multiset(a[1..]) == multiset(b[..i] + b[i + 1..])
  {
    assert a[0] in multiset(b);
    i :| 0 <= i < |b| && b[i] == a[0];
    MultisetRemoveAt(b, i);
    assert a == [a[0]] + a[1..];
    assert multiset(a) == multiset{a[0]} + multiset(a[1..]);
  }

  /** The TI total does not depend on the order of the tenants. */
  lemma {:induction false} SumTIPermutation(a: seq<Tenant>, b: seq<Tenant>)
    requires multiset(a) == multiset(b)
    ensures SumTI(a) == SumTI(b)
    decreases |a|
  {
    if a == [] {
      assert |b| == |multiset(b)| == 0;
    } else {
      var i := MatchFirst(a, b);
      SumTIPermutation(a[1..], b[..i] + b[i + 1..]);
      SumTIRemoveAt(b, i);
    }
  }

  /** Tenants with non-negative areas and rates give a non-negative TI total. */
  lemma {:induction false} SumTINonNegative(ts: seq<Tenant>)
    requires forall i :: 0 <= i < |ts| ==> 0.0 <= ts[i].sqft && 0.0 <= ts[i].tiPerSF
    ensures 0.0 <= SumTI(ts)
    decreases |ts|
  {
    if ts != [] {
      SumTINonNegative(ts[1..]);
      assert 0.0 <= ts[0].sqft * ts[0].tiPerSF;
    }
  }

  /** Total leased area of a tenant list. */
  function TotalSqft(ts: seq<Tenant>): real
    decreases |ts|
  {
    if ts == [] then 0.0 else ts[0].sqft + TotalSqft(ts[1..])
  }

  /** When every tenant has the same TI rate, the total is that rate times the leased area. */
  lemma {:induction false} SumTIUniformRate(ts: seq<Tenant>, rate: real)
    requires forall i :: 0 <= i < |ts| ==> ts[i].tiPerSF == rate
    ensures SumTI(ts) == rate * TotalSqft(ts)
    decreases |ts|
  {
    if ts != [] {
      SumTIUniformRate(ts[1..], rate);
      assert TenantTI(ts[0]) == rate * ts[0].sqft;
    }
  }

  /** `selectedType?.id === 'office'`: an absent type is not office, and the id is compared exactly. */
  predicate IsOffice(selectedType: Option<PropertyType>)
    ensures IsOffice(selectedType) ==> selectedType.Some? && |selectedType.value.id| == 6
  {
    selectedType.Some? && selectedType.value.id == OfficeId
  }

  /** Only the exact lower-case id selects the office branch; no type, or another spelling, does not. */
  lemma IsOfficeExactId(name: string)
    ensures IsOffice(Some(PropertyType("office", name)))
    ensures !IsOffice(None)
    ensures !IsOffice(Some(PropertyType("Office", name))) && !IsOffice(Some(PropertyType("OFFICE", name)))
    ensures !IsOffice(Some(PropertyType("retail", name))) && !IsOffice(Some(PropertyType("", name)))
  {
  }

  /**
   * The TI total. Office prices the whole gross area at the office TI rate and
   * never reads the tenant list; every other type, including an absent one,
   * reduces over the tenants, which throws when there are none.
   */
  function TotalTI(p: ProjectData, selectedType: Option<PropertyType>): (r: Result<real, CalcError>)
    ensures IsOffice(selectedType) ==> r == Success(p.grossSquareFeet * p.officeTIPerSF)
    ensures !IsOffice(selectedType) && p.tenants.Some? ==> r == Success(SumTI(p.tenants.value))
    ensures r.Failure? <==> !IsOffice(selectedType) && p.tenants.None?
  {
    if IsOffice(selectedType) then
      Success(p.grossSquareFeet * p.officeTIPerSF)
    else
      match p.tenants
      case None => Failure(TenantsMissing)
      case Some(ts) =>
        ReduceIsSum(0.0, ts);
        Success(ReduceTI(0.0, ts))
  }

  // ---------------------------------------------------------------------------
  // The returned record

  /**
   * `calculateProForma(projectData, selectedType)`. The site-less-building area
   * is computed and dropped; the input is a value and is not changed.
   */
  function CalculateProForma(p: ProjectData, selectedType: Option<PropertyType>): (r: Result<ProForma, CalcError>)
    ensures r.Success? <==> IsOffice(selectedType) || p.tenants.Some?
    ensures r.Success? ==>
      && r.value.rentableSF == RentableSF(p)
      && r.value.useableSF == UseableSF(p)
      && r.value.siteAreaSF == SiteAreaSF(p)
      && Success(r.value.totalTI) == TotalTI(p, selectedType)
  {
    var rentableSF := RentableSF(p);
    var useableSF := UseableSF(p);
    var siteAreaSF := SiteAreaSF(p);
    // computed, as in the source, and deliberately not part of the returned record
    var siteLessBuildingSF := SiteLessBuildingSF(p);
    match TotalTI(p, selectedType)
    case Failure(e) => Failure(e)
    case Success(totalTI) => Success(ProForma(rentableSF, useableSF, siteAreaSF, totalTI))
  }

  /** Two projects that differ at most in their tenants, and agree on the TI total, have the same result. */
  lemma SameResult(p: ProjectData, q: ProjectData, selectedType: Option<PropertyType>)
    requires p.(tenants := q.tenants) == q
    requires TotalTI(p, selectedType).Success? == TotalTI(q, selectedType).Success?
    requires TotalTI(p, selectedType).Success? ==> TotalTI(p, selectedType).value == TotalTI(q, selectedType).value
    ensures CalculateProForma(p, selectedType) == CalculateProForma(q, selectedType)
  {
  }

  /** For an office the result never depends on the tenant list, not even on whether there is one. */
  lemma OfficeIgnoresTenants(p: ProjectData, selectedType: Option<PropertyType>, other: Option<seq<Tenant>>)
    requires IsOffice(selectedType)
    ensures CalculateProForma(p, selectedType).Success?
    ensures CalculateProForma(p, selectedType) == CalculateProForma(p.(tenants := other), selectedType)
    ensures CalculateProForma(p, selectedType).value.totalTI == p.grossSquareFeet * p.officeTIPerSF
  {
    SameResult(p, p.(tenants := other), selectedType);
  }

  /** For any other type, reordering the tenants leaves the result unchanged. */
  lemma TenantOrderIrrelevant(p: ProjectData, selectedType: Option<PropertyType>, a: seq<Tenant>, b: seq<Tenant>)
    requires multiset(a) == multiset(b)
    ensures CalculateProForma(p.(tenants := Some(a)), selectedType) == CalculateProForma(p.(tenants := Some(b)), selectedType)
  {
    SumTIPermutation(a, b);
    SameResult(p.(tenants := Some(a)), p.(tenants := Some(b)), selectedType);
  }

  /** Non-negative inputs and percentages in range give non-negative outputs, with the derived areas within the gross area. */
  lemma ProFormaBounds(p: ProjectData, selectedType: Option<PropertyType>)
    requires 0.0 <= p.grossSquareFeet && 0.0 <= p.landAcres && 0.0 <= p.officeTIPerSF
    requires 0.0 <= p.rentablePercent <= 100.0 && 0.0 <= p.useablePercent <= 100.0
    requires p.tenants.Some? ==> forall i :: 0 <= i < |p.tenants.value| ==> 0.0 <= p.tenants.value[i].sqft && 0.0 <= p.tenants.value[i].tiPerSF
    ensures var r := CalculateProForma(p, selectedType);
      r.Success? ==>
        && 0.0 <= r.value.rentableSF <= p.grossSquareFeet
        && 0.0 <= r.value.useableSF <= p.grossSquareFeet
        && 0.0 <= r.value.siteAreaSF
        && 0.0 <= r.value.totalTI
  {
    if !IsOffice(selectedType) && p.tenants.Some? {
      SumTINonNegative(p.tenants.value);
    }
  }
}
