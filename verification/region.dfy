/** The administrative hierarchy Province → Regency → District and the
    depth-first lookup of a region id in it. */
module Regions {

  import opened Common

  datatype District = District(
    id: string, name: string, coordinates: Coordinates, transmigrationAreas: seq<string>)

  datatype Regency = Regency(
    id: string, name: string, coordinates: Coordinates, districts: seq<District>)

  datatype Province = Province(
    id: string, name: string, coordinates: Coordinates, regencies: seq<Regency>)

  datatype RegionData = RegionData(provinces: seq<Province>)

  /** The levels `findRegionById` reports; absent levels are `None`. */
  datatype Lookup = Lookup(province: Option<Province>, regency: Option<Regency>, district: Option<District>)

  const NotFound := Lookup(None, None, None)

  /** Some district of `ds` carries `id`. */
  predicate DistrictsHave(ds: seq<District>, id: string)
  {
    exists i :: 0 <= i < |ds| && ds[i].id == id
  }

  /** The regency or one of its districts carries `id`. */
  predicate RegencyHas(r: Regency, id: string)
  {
    r.id == id || DistrictsHave(r.districts, id)
  }

  /** The province, one of its regencies or one of their districts carries `id`. */
  predicate ProvinceHas(p: Province, id: string)
  {
    p.id == id || exists i :: 0 <= i < |p.regencies| && RegencyHas(p.regencies[i], id)
  }

  /** `ds[i]` is the first district carrying `id`. */
  predicate FirstDistrictAt(ds: seq<District>, id: string, i: int)
  {
    0 <= i < |ds| && ds[i].id == id && forall j :: 0 <= j < i ==> ds[j].id != id
  }

  /** `rs[i]` is the first regency that itself, or through a district, carries `id`. */
  predicate FirstRegencyAt(rs: seq<Regency>, id: string, i: int)
  {
    0 <= i < |rs| && RegencyHas(rs[i], id) && forall j :: 0 <= j < i ==> !RegencyHas(rs[j], id)
  }

  /** `ps[i]` is the first province holding `id` at any level. */
  predicate FirstProvinceAt(ps: seq<Province>, id: string, i: int)
  {
    0 <= i < |ps| && ProvinceHas(ps[i], id) && forall j :: 0 <= j < i ==> !ProvinceHas(ps[j], id)
  }

  /** The first district carrying `id`. */
  function FindDistrict(ds: seq<District>, id: string): (d: Option<District>)
    ensures d.Some? ==> d.value in ds && d.value.id == id
    ensures d.Some? ==> exists i :: FirstDistrictAt(ds, id, i) && ds[i] == d.value
    ensures d.None? <==> !DistrictsHave(ds, id)
  {
    if ds == [] then None
    else if ds[0].id == id then
      assert FirstDistrictAt(ds, id, 0);
      Some(ds[0])
    else
      var rest := FindDistrict(ds[1..], id);
      assert DistrictsHave(ds, id) ==> DistrictsHave(ds[1..], id) by {
        if DistrictsHave(ds, id) {
          var i :| 0 <= i < |ds| && ds[i].id == id;
          assert ds[1..][i - 1] == ds[i];
        }
      }
      assert rest.Some? ==> exists i :: FirstDistrictAt(ds, id, i) && ds[i] == rest.value by {
        if rest.Some? {
          var i :| FirstDistrictAt(ds[1..], id, i) && ds[1..][i] == rest.value;
          assert FirstDistrictAt(ds, id, i + 1);
        }
      }
      rest
  }

  /** Depth-first over regencies: a regency's own id before its districts,
      the districts before the next regency. */
  function FindInRegencies(rs: seq<Regency>, id: string): (found: Option<(Regency, Option<District>)>)
    ensures found.Some? ==> found.value.0 in rs
    ensures found.Some? ==> exists i :: FirstRegencyAt(rs, id, i) && rs[i] == found.value.0
    ensures found.Some? && found.value.0.id == id ==> found.value.1 == None
    ensures found.Some? && found.value.0.id != id ==>
      found.value.1 == FindDistrict(found.value.0.districts, id) && found.value.1.Some?
    ensures found.Some? && found.value.1.None? ==> found.value.0.id == id
    ensures found.Some? && found.value.1.Some? ==>
      found.value.1.value in found.value.0.districts && found.value.1.value.id == id
    ensures found.None? <==> forall i :: 0 <= i < |rs| ==> !RegencyHas(rs[i], id)
  {
    if rs == [] then None
    else if rs[0].id == id then
      assert FirstRegencyAt(rs, id, 0);
      Some((rs[0], None))
    else
      match FindDistrict(rs[0].districts, id)
      case Some(d) =>
        assert FirstRegencyAt(rs, id, 0);
        Some((rs[0], Some(d)))
      case None =>
        var rest := FindInRegencies(rs[1..], id);
        assert forall i :: 1 <= i < |rs| ==> rs[i] == rs[1..][i - 1];
        assert rest.Some? ==> exists i :: FirstRegencyAt(rs, id, i) && rs[i] == rest.value.0 by {
          if rest.Some? {
            var i :| FirstRegencyAt(rs[1..], id, i) && rs[1..][i] == rest.value.0;
            assert FirstRegencyAt(rs, id, i + 1);
          }
        }
        rest
  }

  /** Depth-first over provinces: a province's own id before its regencies. */
  function Find(ps: seq<Province>, id: string): (r: Lookup)
    ensures r.district.Some? ==> r.regency.Some?
    ensures r.regency.Some? ==> r.province.Some?
    ensures r.province.Some? ==> r.province.value in ps
    ensures r.province.Some? ==> exists i :: FirstProvinceAt(ps, id, i) && ps[i] == r.province.value
    ensures r.province.Some? && r.province.value.id == id ==> r.regency == None && r.district == None
    ensures r.province.Some? && r.province.value.id != id ==>
      r.regency.Some? && FindInRegencies(r.province.value.regencies, id) == Some((r.regency.value, r.district))
    ensures ps != [] && ps[0].id == id ==> r == Lookup(Some(ps[0]), None, None)
    ensures r.regency.Some? ==> r.regency.value in r.province.value.regencies
    ensures r.district.Some? ==> r.district.value in r.regency.value.districts && r.district.value.id == id
    ensures r.regency.Some? && r.district.None? ==> r.regency.value.id == id
    ensures r.province.Some? && r.regency.None? ==> r.province.value.id == id
    ensures r == NotFound <==> forall i :: 0 <= i < |ps| ==> !ProvinceHas(ps[i], id)
  {
    if ps == [] then NotFound
    else if ps[0].id == id then
      assert FirstProvinceAt(ps, id, 0);
      Lookup(Some(ps[0]), None, None)
    else
      match FindInRegencies(ps[0].regencies, id)
      case Some((regency, district)) =>
        assert FirstProvinceAt(ps, id, 0) by {
          var i :| FirstRegencyAt(ps[0].regencies, id, i) && ps[0].regencies[i] == regency;
        }
        Lookup(Some(ps[0]), Some(regency), district)
      case None =>
        var rest := Find(ps[1..], id);
        assert forall i :: 1 <= i < |ps| ==> ps[i] == ps[1..][i - 1];
        assert rest.province.Some? ==> exists i :: FirstProvinceAt(ps, id, i) && ps[i] == rest.province.value by {
          if rest.province.Some? {
            var i :| FirstProvinceAt(ps[1..], id, i) && ps[1..][i] == rest.province.value;
            FirstProvinceShift(ps, id, i);
          }
        }
        rest
  }

  /** One step of the depth-first search: the head province, then the rest. */
  function FindStep(p: Province, rest: seq<Province>, id: string): Lookup
  {
    if p.id == id then Lookup(Some(p), None, None)
    else match FindInRegencies(p.regencies, id)
      case Some((regency, district)) => Lookup(Some(p), Some(regency), district)
      case None => Find(rest, id)
  }

  lemma FindUnfold(ps: seq<Province>, id: string)
    requires ps != []
    ensures Find(ps, id) == FindStep(ps[0], ps[1..], id)
  {
  }

  /** Past a province without a match, the first match moves one place on. */
  lemma FirstProvinceShift(ps: seq<Province>, id: string, i: int)
    requires ps != [] && !ProvinceHas(ps[0], id) && FirstProvinceAt(ps[1..], id, i)
    ensures FirstProvinceAt(ps, id, i + 1) && ps[i + 1] == ps[1..][i]
  {
    forall j | 0 <= j < i + 1
      ensures !ProvinceHas(ps[j], id)
    {
      if j > 0 {
        assert ps[j] == ps[1..][j - 1];
      }
    }
  }

  /** The first match in depth-first order wins: appending provinces never
      changes a result that was already found. */
  lemma {:induction false} FindFirstMatchWins(ps: seq<Province>, more: seq<Province>, id: string)
    requires Find(ps, id) != NotFound
    ensures Find(ps + more, id) == Find(ps, id)
  {
    assert ps != [];
    var whole := ps + more;
    assert whole[0] == ps[0] && whole[1..] == ps[1..] + more;
    FindUnfold(ps, id);
    FindUnfold(whole, id);
    if ps[0].id != id && FindInRegencies(ps[0].regencies, id).None? {
      FindFirstMatchWins(ps[1..], more, id);
    }
  }

  /** When the first provinces hold no match, the search continues into the rest. */
  lemma {:induction false} FindSkipsUnmatched(ps: seq<Province>, more: seq<Province>, id: string)
    requires Find(ps, id) == NotFound
    ensures Find(ps + more, id) == Find(more, id)
  {
    if ps != [] {
      assert (ps + more)[0] == ps[0];
      assert (ps + more)[1..] == ps[1..] + more;
      assert Find(ps + more, id) == Find(ps[1..] + more, id);
      FindSkipsUnmatched(ps[1..], more, id);
    } else {
      assert ps + more == more;
    }
  }

  /** `findRegionById`: the triple loop with early returns. */
  method FindRegionById(regions: RegionData, regionId: string) returns (r: Lookup)
    ensures r == Find(regions.provinces, regionId)
  {
    var ps := regions.provinces;
    var i := 0;
    while i < |ps|
      invariant 0 <= i <= |ps|
      invariant Find(ps, regionId) == Find(ps[i..], regionId)
    {
      var province := ps[i];
      assert ps[i..][0] == province && ps[i..][1..] == ps[i + 1..];
      if province.id == regionId {
        return Lookup(Some(province), None, None);
      }
      var rs := province.regencies;
      var j := 0;
      while j < |rs|
        invariant 0 <= j <= |rs|
        invariant FindInRegencies(rs, regionId) == FindInRegencies(rs[j..], regionId)
      {
        var regency := rs[j];
        assert rs[j..][0] == regency && rs[j..][1..] == rs[j + 1..];
        if regency.id == regionId {
          return Lookup(Some(province), Some(regency), None);
        }
        var ds := regency.districts;
        var k := 0;
        while k < |ds|
          invariant 0 <= k <= |ds|
          invariant FindDistrict(ds, regionId) == FindDistrict(ds[k..], regionId)
        {
          var district := ds[k];
          assert ds[k..][0] == district && ds[k..][1..] == ds[k + 1..];
          if district.id == regionId {
            return Lookup(Some(province), Some(regency), Some(district));
          }
          k := k + 1;
        }
        j := j + 1;
      }
      i := i + 1;
    }
    return NotFound;
  }

  /** Some entity at some level carries `id` and is called `name`. */
  ghost predicate NamedWithId(ps: seq<Province>, id: string, name: string)
  {
    exists p :: p in ps && (
      (p.id == id && p.name == name) ||
      exists r :: r in p.regencies && (
        (r.id == id && r.name == name) ||
        exists d :: d in r.districts && d.id == id && d.name == name))
  }

  /** `getRegionName`: the name of the most specific level found. */
  function RegionName(regions: RegionData, regionId: string): (name: string)
    ensures Find(regions.provinces, regionId) == NotFound ==> name == "Unknown"
    ensures Find(regions.provinces, regionId) != NotFound ==> NamedWithId(regions.provinces, regionId, name)
    ensures var found := Find(regions.provinces, regionId);
      (found.district.Some? ==> name == found.district.value.name) &&
      (found.district.None? && found.regency.Some? ==> name == found.regency.value.name) &&
      (found.district.None? && found.regency.None? && found.province.Some? ==> name == found.province.value.name)
  {
    var found := Find(regions.provinces, regionId);
    if found.district.Some? then found.district.value.name
    else if found.regency.Some? then found.regency.value.name
    else if found.province.Some? then found.province.value.name
    else "Unknown"
  }

  /** The name `getRegionName` reports is the last part of the full path. */
  lemma RegionNameIsLastPathPart(regions: RegionData, regionId: string)
    requires Find(regions.provinces, regionId) != NotFound
    ensures var parts := PathParts(Find(regions.provinces, regionId));
      parts != [] && RegionName(regions, regionId) == parts[|parts| - 1]
  {
  }

  /** A region id nothing in the hierarchy carries is named "Unknown". */
  lemma UnknownIdIsUnknown(regions: RegionData, regionId: string)
    requires forall i :: 0 <= i < |regions.provinces| ==> !ProvinceHas(regions.provinces[i], regionId)
    ensures RegionName(regions, regionId) == "Unknown"
  {
  }

  /** The names of the found levels, province first. */
  function PathParts(found: Lookup): (parts: seq<string>)
    ensures found == NotFound ==> parts == []
  {
    (if found.province.Some? then [found.province.value.name] else [])
      + (if found.regency.Some? then [found.regency.value.name] else [])
      + (if found.district.Some? then [found.district.value.name] else [])
  }

  /** `parts.join(separator)`. */
  function Join(parts: seq<string>, separator: string): string
  {
    if parts == [] then ""
    else if |parts| == 1 then parts[0]
    else Join(parts[..|parts| - 1], separator) + separator + parts[|parts| - 1]
  }

  /** `getFullRegionPath`: the found names, province first, joined by " > ". */
  method GetFullRegionPath(regions: RegionData, regionId: string) returns (path: string)
    ensures path == Join(PathParts(Find(regions.provinces, regionId)), " > ")
    ensures Find(regions.provinces, regionId) == NotFound ==> path == ""
  {
    var found := FindRegionById(regions, regionId);
    var parts := FoundNames(found);
    path := Join(parts, " > ");
  }

  /** The successive pushes of the found levels' names. */
  method FoundNames(found: Lookup) returns (parts: seq<string>)
    ensures parts == PathParts(found)
  {
    parts := [];
    if found.province.Some? {
      parts := parts + [found.province.value.name];
    }
    if found.regency.Some? {
      parts := parts + [found.regency.value.name];
    }
    if found.district.Some? {
      parts := parts + [found.district.value.name];
    }
  }

  /** A found path starts with the province's name and ends with the name
      `getRegionName` reports. */
  lemma PathEndsWithRegionName(regions: RegionData, regionId: string)
    requires Find(regions.provinces, regionId) != NotFound
    ensures var path := Join(PathParts(Find(regions.provinces, regionId)), " > ");
      var name := RegionName(regions, regionId);
      |name| <= |path| && path[|path| - |name|..] == name &&
      var first := Find(regions.provinces, regionId).province.value.name;
      |first| <= |path| && path[..|first|] == first
  {
    var found := Find(regions.provinces, regionId);
    var parts := PathParts(found);
    JoinPrefix(parts, " > ");
  }

  /** A joined list ends with its last part and begins with its first. */
  lemma {:induction false} JoinPrefix(parts: seq<string>, separator: string)
    requires parts != []
    ensures var joined := Join(parts, separator);
      |parts[|parts| - 1]| <= |joined| && joined[|joined| - |parts[|parts| - 1]|..] == parts[|parts| - 1] &&
      |parts[0]| <= |joined| && joined[..|parts[0]|] == parts[0]
  {
    if |parts| > 1 {
      var init := parts[..|parts| - 1];
      JoinPrefix(init, separator);
      var joined := Join(parts, separator);
      var left := Join(init, separator);
      assert joined == left + separator + parts[|parts| - 1];
      assert joined[..|parts[0]|] == left[..|parts[0]|];
    }
  }
}
