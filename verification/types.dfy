/**
 * The application's data model and constant tables: supported brands with their
 * screen shapes, the design styles, the complication keys, the design record and
 * the generation state.
 */
module Types {
  import opened Base

  datatype Shape = Circle | Square

  datatype Brand = Brand(id: string, name: string, color: string, shape: Shape)

  /** The supported brands, in display order; the first is the fallback brand. */
  const Brands: seq<Brand> := [
    Brand("apple", "Apple Watch", "bg-zinc-800", Square),
    Brand("samsung", "Samsung Galaxy", "bg-blue-900", Circle),
    Brand("google", "Google Pixel", "bg-indigo-600", Circle),
    Brand("huawei", "Huawei Watch", "bg-red-900", Circle),
    Brand("xiaomi", "Xiaomi/Redmi", "bg-orange-800", Circle),
    Brand("garmin", "Garmin", "bg-emerald-900", Circle),
    Brand("fitbit", "Fitbit", "bg-teal-700", Square),
    Brand("amazfit", "Amazfit", "bg-teal-900", Circle),
    Brand("oppo", "OPPO Watch", "bg-green-800", Square),
    Brand("tagheuer", "TAG Heuer", "bg-slate-900", Circle),
    Brand("fossil", "Fossil / WearOS", "bg-stone-700", Circle),
    Brand("other", "Generic / Other", "bg-slate-700", Circle)
  ]

  /** The values of the design-style enumeration, in declaration order. */
  const Minimalist := "Minimalist"
  const Styles: seq<string> := [
    Minimalist, "Luxury/Classic", "Cyberpunk/Sci-Fi",
    "Sport/Tactical", "Artistic/Abstract", "Retro/Pixel"
  ]

  /** The complication keys a user can select, in display order. */
  const Complications: seq<string> := [
    "date", "steps", "heartRate", "weather", "battery", "notifications", "music",
    "timer", "alarm", "altitude", "moonPhase", "spo2", "calendar", "aqi", "stocks"
  ]

  /** A complication selection: complication keys, each at most once. */
  predicate ValidSelection(sel: seq<string>) {
    NoDup(sel) && forall k | 0 <= k < |sel| :: sel[k] in Complications
  }

  /** A generated watch-face design. `imageUrl` may be absent. */
  datatype Design = Design(
    id: string,
    name: string,
    description: string,
    style: string,
    targetDevice: string,
    colorPalette: seq<string>,
    complications: seq<string>,
    visualPrompt: string,
    originalPrompt: string,
    imageUrl: Option<string>,
    createdAt: int,
    language: string)

  datatype Step = Idle | Analyzing | Designing | Rendering | Complete | Error

  datatype GenerationState = GenerationState(isGenerating: bool, step: Step, errorMessage: Option<string>)

  /** The two brand properties the application looks brands up by. */
  datatype BrandKey = ById | ByName

  function KeyOf(b: Brand, key: BrandKey): string {
    match key
    case ById => b.id
    case ByName => b.name
  }

  /**
   * The first brand whose id or name is `v`, if any
   * (`SUPPORTED_BRANDS.find(b => b.id === v)`, or the same on `b.name`).
   */
  function Find(bs: seq<Brand>, key: BrandKey, v: string): (r: Option<Brand>)
    ensures r.Some? ==> r.value in bs && KeyOf(r.value, key) == v
    ensures r.None? <==> forall k | 0 <= k < |bs| :: KeyOf(bs[k], key) != v
  {
    if bs == [] then None
    else if KeyOf(bs[0], key) == v then Some(bs[0])
    else Find(bs[1..], key, v)
  }

  /** The id of a supported brand. */
  predicate Supported(id: string) {
    exists k | 0 <= k < |Brands| :: Brands[k].id == id
  }

  /**
   * The brand selected by id, falling back to the first supported brand
   * when no brand has that id.
   */
  function BrandById(id: string): (r: Brand)
    ensures r in Brands
    ensures Supported(id) ==> r.id == id
    ensures !Supported(id) ==> r == Brands[0]
  {
    Find(Brands, ById, id).GetOr(Brands[0])
  }

  /** The brand whose display name is `name`, falling back to the first supported brand. */
  function BrandByName(name: string): (r: Brand)
    ensures r in Brands
    ensures (exists k | 0 <= k < |Brands| :: Brands[k].name == name) ==> r.name == name
    ensures (forall k | 0 <= k < |Brands| :: Brands[k].name != name) ==> r == Brands[0]
  {
    Find(Brands, ByName, name).GetOr(Brands[0])
  }

  /** The design-cache key of a brand and style: `brandId + ":" + style`. */
  function CacheKey(brandId: string, style: string): string {
    brandId + ":" + style
  }

  /** Brand ids are pairwise distinct, and so are brand names. */
  lemma BrandsDistinct()
    ensures forall i, j | 0 <= i < j < |Brands| :: Brands[i].id != Brands[j].id
    ensures forall i, j | 0 <= i < j < |Brands| :: Brands[i].name != Brands[j].name
  {}

  /** No brand id contains ':'. */
  lemma BrandIdsColonFree()
    ensures forall k | 0 <= k < |Brands| :: ':' !in Brands[k].id
  {}

  /** The fallback brand is Apple, square; exactly Apple, Fitbit and OPPO are square. */
  lemma BrandShapes()
    ensures Brands[0].id == "apple" && Brands[0].shape == Square
    ensures forall k | 0 <= k < |Brands| ::
      Brands[k].shape == Square <==> Brands[k].id in ["apple", "fitbit", "oppo"]
  {}

  /** Fifteen distinct complication keys, six distinct styles. */
  lemma TablesDistinct()
    ensures |Complications| == 15 && NoDup(Complications)
    ensures |Styles| == 6 && NoDup(Styles)
  {}

  /** Complication keys are non-empty, comma-free, and begin with a lower-case letter. */
  lemma ComplicationKeysShape()
    ensures forall k | 0 <= k < |Complications| ::
      |Complications[k]| > 0 && ',' !in Complications[k] && 'a' <= Complications[k][0] <= 'z'
  {}

  /** A supported brand is found by its own id and by its own name. */
  lemma {:induction false} LookupOwn(b: Brand)
    requires b in Brands
    ensures Supported(b.id)
    ensures BrandById(b.id) == b
    ensures BrandByName(b.name) == b
  {
    BrandsDistinct();
    var k :| 0 <= k < |Brands| && Brands[k] == b;
    var r := BrandById(b.id);
    var j :| 0 <= j < |Brands| && Brands[j] == r;
    assert j == k;
    var q := BrandByName(b.name);
    var m :| 0 <= m < |Brands| && Brands[m] == q;
    assert m == k;
  }

  /**
   * A cache key determines the brand id and the style: the key splits at its
   * first ':' because a brand id holds none.
   */
  lemma {:induction false} CacheKeyInjective(id1: string, s1: string, id2: string, s2: string)
    requires ':' !in id1 && ':' !in id2
    ensures CacheKey(id1, s1) == CacheKey(id2, s2) <==> id1 == id2 && s1 == s2
  {
    var k1, k2 := CacheKey(id1, s1), CacheKey(id2, s2);
    if k1 == k2 {
      assert k1[|id1|] == ':' && k2[|id2|] == ':';
      assert |id1| == |id2|;
      assert id1 == k1[..|id1|] == k2[..|id2|] == id2;
      assert s1 == k1[|id1| + 1..] == k2[|id2| + 1..] == s2;
    }
  }

  /** Among supported brands, a cache key determines the brand and the style. */
  lemma CacheKeyDeterminesBrand(b1: Brand, s1: string, b2: Brand, s2: string)
    requires b1 in Brands && b2 in Brands
    ensures CacheKey(b1.id, s1) == CacheKey(b2.id, s2) <==> b1 == b2 && s1 == s2
  {
    BrandIdsColonFree();
    BrandsDistinct();
    CacheKeyInjective(b1.id, s1, b2.id, s2);
  }
}
