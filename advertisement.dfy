/**
 * The client's advertisement types: a union of three variants keyed by the
 * `type` discriminant, and how a value of that type looks as a JSON object.
 */
module Advertisement {
  import opened Wrappers
  import opened JsValue

  /** The string-literal union of the three categories. */
  datatype AdvertisementType = RealEstate | Auto | Services

  /** The literal each category stands for. */
  function Label(t: AdvertisementType): string
  {
    match t
    case RealEstate => "Недвижимость"
    case Auto => "Авто"
    case Services => "Услуги"
  }

  /** The category a string names, if it names one. */
  function FromLabel(s: string): (r: Option<AdvertisementType>)
    ensures forall t :: r == Some(t) <==> Label(t) == s
  {
    if s == "Недвижимость" then Some(RealEstate)
    else if s == "Авто" then Some(Auto)
    else if s == "Услуги" then Some(Services)
    else None
  }

  /** The fields every variant shares; `id` and `image` are optional. */
  datatype Base = Base(
    id: Option<string>,
    name: string,
    description: string,
    location: string,
    image: Option<string>)

  /**
   * One advertisement. The discriminant is not stored: each variant fixes
   * it (see TypeOf), so no value can carry a mismatched `type`.
   */
  datatype Advertisement =
    | RealEstateAd(base: Base, propertyType: string, area: int, rooms: int, price: int)
    | AutomotiveAd(base: Base, brand: string, model: string, year: int, mileage: Option<int>)
    | ServicesAd(base: Base, serviceType: string, experience: int, cost: int, workSchedule: Option<string>)

  /** The value of the `type` field of an advertisement. */
  function TypeOf(ad: Advertisement): AdvertisementType
  {
    match ad
    case RealEstateAd(_, _, _, _, _) => RealEstate
    case AutomotiveAd(_, _, _, _, _) => Auto
    case ServicesAd(_, _, _, _, _) => Services
  }

  // ---------------------------------------------------------------------
  // The JSON shape of an advertisement
  // ---------------------------------------------------------------------

  function PutOptStr(r: Record, k: string, v: Option<string>): Record
  {
    if v.Some? then r[k := Str(v.value)] else r
  }

  function BaseRecord(b: Base, t: AdvertisementType): Record
  {
    var r := map["name" := Str(b.name), "description" := Str(b.description),
                 "location" := Str(b.location), "type" := Str(Label(t))];
    PutOptStr(PutOptStr(r, "id", b.id), "image", b.image)
  }

  /** The properties of the variant itself, none of them a base property. */
  function VariantRecord(ad: Advertisement): (r: Record)
    ensures r.Keys !! {"id", "name", "description", "location", "image", "type"}
  {
    match ad
    case RealEstateAd(_, propertyType, area, rooms, price) =>
      map["propertyType" := Str(propertyType), "area" := Num(area), "rooms" := Num(rooms), "price" := Num(price)]
    case AutomotiveAd(_, brand, model, year, mileage) =>
      var r := map["brand" := Str(brand), "model" := Str(model), "year" := Num(year)];
      if mileage.Some? then r["mileage" := Num(mileage.value)] else r
    case ServicesAd(_, serviceType, experience, cost, workSchedule) =>
      PutOptStr(map["serviceType" := Str(serviceType), "experience" := Num(experience), "cost" := Num(cost)],
                "workSchedule", workSchedule)
  }

  /** The JSON object of an advertisement; optional fields are omitted when absent. */
  function ToRecord(ad: Advertisement): (r: Record)
    ensures Get(r, "type") == Str(Label(TypeOf(ad)))
    ensures Get(r, "name") == Str(ad.base.name)
  {
    BaseRecord(ad.base, TypeOf(ad)) + VariantRecord(ad)
  }

  function ReadStr(r: Record, k: string): Option<string>
  {
    if Get(r, k).Str? then Some(Get(r, k).s) else None
  }

  function ReadNum(r: Record, k: string): Option<int>
  {
    if Get(r, k).Num? then Some(Get(r, k).n) else None
  }

  /** An optional string field: absent is fine, present must be a string. */
  function ReadOptStr(r: Record, k: string): Option<Option<string>>
  {
    match Get(r, k)
    case Undefined => Some(None)
    case Str(s) => Some(Some(s))
    case _ => None
  }

  function ReadOptNum(r: Record, k: string): Option<Option<int>>
  {
    match Get(r, k)
    case Undefined => Some(None)
    case Num(n) => Some(Some(n))
    case _ => None
  }

  function ReadBase(r: Record): Option<Base>
  {
    var id := ReadOptStr(r, "id");
    var name := ReadStr(r, "name");
    var description := ReadStr(r, "description");
    var location := ReadStr(r, "location");
    var image := ReadOptStr(r, "image");
    if id.Some? && name.Some? && description.Some? && location.Some? && image.Some?
    then Some(Base(id.value, name.value, description.value, location.value, image.value))
    else None
  }

  function ReadRealEstate(r: Record, base: Base): Option<Advertisement>
  {
    var propertyType := ReadStr(r, "propertyType");
    var area := ReadNum(r, "area");
    var rooms := ReadNum(r, "rooms");
    var price := ReadNum(r, "price");
    if propertyType.Some? && area.Some? && rooms.Some? && price.Some?
    then Some(RealEstateAd(base, propertyType.value, area.value, rooms.value, price.value))
    else None
  }

  function ReadAutomotive(r: Record, base: Base): Option<Advertisement>
  {
    var brand := ReadStr(r, "brand");
    var model := ReadStr(r, "model");
    var year := ReadNum(r, "year");
    var mileage := ReadOptNum(r, "mileage");
    if brand.Some? && model.Some? && year.Some? && mileage.Some?
    then Some(AutomotiveAd(base, brand.value, model.value, year.value, mileage.value))
    else None
  }

  function ReadServices(r: Record, base: Base): Option<Advertisement>
  {
    var serviceType := ReadStr(r, "serviceType");
    var experience := ReadNum(r, "experience");
    var cost := ReadNum(r, "cost");
    var workSchedule := ReadOptStr(r, "workSchedule");
    if serviceType.Some? && experience.Some? && cost.Some? && workSchedule.Some?
    then Some(ServicesAd(base, serviceType.value, experience.value, cost.value, workSchedule.value))
    else None
  }

  /** The category named by the `type` property, if it names one. */
  function ReadType(r: Record): Option<AdvertisementType>
  {
    if Get(r, "type").Str? then FromLabel(Get(r, "type").s) else None
  }

  /**
   * The `Advertisement` a JSON object is an instance of, if any: the
   * variant is chosen by `type`, every field the variant requires must be
   * present with its declared type, and extra properties are allowed.
   */
  function FromRecord(r: Record): (ad: Option<Advertisement>)
    ensures ad.Some? ==> Get(r, "type") == Str(Label(TypeOf(ad.value)))
    ensures ad.Some? ==> Get(r, "name") == Str(ad.value.base.name)
  {
    var base := ReadBase(r);
    var t := ReadType(r);
    if base.None? || t.None? then None
    else match t.value
      case RealEstate => ReadRealEstate(r, base.value)
      case Auto => ReadAutomotive(r, base.value)
      case Services => ReadServices(r, base.value)
  }

  /** Every property of `part` is in `r`, with the same value. */
  predicate Extends(r: Record, part: Record)
  {
    forall k :: k in part ==> k in r && r[k] == part[k]
  }

  /**
   * The converse of FromToRecord: an object decoded as an advertisement
   * holds that advertisement's JSON object, property for property, next to
   * whatever extra properties it has.
   */
  lemma FromRecordAgrees(r: Record)
    ensures FromRecord(r).Some? ==> Extends(r, ToRecord(FromRecord(r).value))
  {
    var ad := FromRecord(r);
    if ad.Some? {
      var a := ad.value;
      BaseAgrees(r, a.base, TypeOf(a));
      match a
      case RealEstateAd(_, _, _, _, _) => RealEstateAgrees(r, a);
      case AutomotiveAd(_, _, _, _, _) => AutomotiveAgrees(r, a);
      case ServicesAd(_, _, _, _, _) => ServicesAgrees(r, a);
      UnionExtends(r, BaseRecord(a.base, TypeOf(a)), VariantRecord(a));
    }
  }

  lemma UnionExtends(r: Record, a: Record, b: Record)
    requires Extends(r, a) && Extends(r, b)
    ensures Extends(r, a + b)
  {
  }

  lemma BaseAgrees(r: Record, b: Base, t: AdvertisementType)
    requires ReadBase(r) == Some(b) && ReadType(r) == Some(t)
    ensures Extends(r, BaseRecord(b, t))
  {
    assert Get(r, "type") == Str(Label(t)) by {
      var s := Get(r, "type").s;
      assert FromLabel(s) == Some(t);
    }
    assert b.id.Some? ==> Get(r, "id") == Str(b.id.value);
    assert b.image.Some? ==> Get(r, "image") == Str(b.image.value);
  }

  lemma RealEstateAgrees(r: Record, ad: Advertisement)
    requires ad.RealEstateAd? && ReadRealEstate(r, ad.base) == Some(ad)
    ensures Extends(r, VariantRecord(ad))
  {
  }

  lemma AutomotiveAgrees(r: Record, ad: Advertisement)
    requires ad.AutomotiveAd? && ReadAutomotive(r, ad.base) == Some(ad)
    ensures Extends(r, VariantRecord(ad))
  {
    assert ad.mileage.Some? ==> Get(r, "mileage") == Num(ad.mileage.value);
  }

  lemma ServicesAgrees(r: Record, ad: Advertisement)
    requires ad.ServicesAd? && ReadServices(r, ad.base) == Some(ad)
    ensures Extends(r, VariantRecord(ad))
  {
    assert ad.workSchedule.Some? ==> Get(r, "workSchedule") == Str(ad.workSchedule.value);
  }

  /** Every advertisement is an instance of its own JSON object, and of nothing else. */
  lemma FromToRecord(ad: Advertisement)
    ensures FromRecord(ToRecord(ad)) == Some(ad)
  {
    var r := ToRecord(ad);
    ReadBaseOfToRecord(ad);
    assert ReadType(r) == Some(TypeOf(ad)) by {
      assert FromLabel(Label(TypeOf(ad))) == Some(TypeOf(ad));
    }
    match ad
    case RealEstateAd(_, _, _, _, _) => ReadRealEstateOfToRecord(ad);
    case AutomotiveAd(_, _, _, _, _) => ReadAutomotiveOfToRecord(ad);
    case ServicesAd(_, _, _, _, _) => ReadServicesOfToRecord(ad);
  }

  lemma ReadRealEstateOfToRecord(ad: Advertisement)
    requires ad.RealEstateAd?
    ensures ReadRealEstate(ToRecord(ad), ad.base) == Some(ad)
  {
    var r := ToRecord(ad);
    assert ReadStr(r, "propertyType") == Some(ad.propertyType);
    assert ReadNum(r, "area") == Some(ad.area);
    assert ReadNum(r, "rooms") == Some(ad.rooms);
    assert ReadNum(r, "price") == Some(ad.price);
  }

  lemma ReadAutomotiveOfToRecord(ad: Advertisement)
    requires ad.AutomotiveAd?
    ensures ReadAutomotive(ToRecord(ad), ad.base) == Some(ad)
  {
    var r := ToRecord(ad);
    assert ReadStr(r, "brand") == Some(ad.brand);
    assert ReadStr(r, "model") == Some(ad.model);
    assert ReadNum(r, "year") == Some(ad.year);
    assert ReadOptNum(r, "mileage") == Some(ad.mileage);
  }

  lemma ReadServicesOfToRecord(ad: Advertisement)
    requires ad.ServicesAd?
    ensures ReadServices(ToRecord(ad), ad.base) == Some(ad)
  {
    var r := ToRecord(ad);
    assert ReadStr(r, "serviceType") == Some(ad.serviceType);
    assert ReadNum(r, "experience") == Some(ad.experience);
    assert ReadNum(r, "cost") == Some(ad.cost);
    assert ReadOptStr(r, "workSchedule") == Some(ad.workSchedule);
  }

  lemma ReadBaseOfToRecord(ad: Advertisement)
    ensures ReadBase(ToRecord(ad)) == Some(ad.base)
  {
    var b := BaseRecord(ad.base, TypeOf(ad));
    var r := ToRecord(ad);
    forall k | k in {"id", "name", "description", "location", "image"} ensures Get(r, k) == Get(b, k) { }
    assert ReadBase(r) == ReadBase(b);
    ReadBaseOfBaseRecord(ad.base, TypeOf(ad));
  }

  lemma ReadBaseOfBaseRecord(b: Base, t: AdvertisementType)
    ensures ReadBase(BaseRecord(b, t)) == Some(b)
  {
    var r := BaseRecord(b, t);
    assert ReadOptStr(r, "id") == Some(b.id);
    assert ReadOptStr(r, "image") == Some(b.image);
  }

  /** The client types `id` as an optional string; an object with a numeric `id` is not an Advertisement. */
  lemma NumericIdIsNotAdvertisement(r: Record, n: int)
    requires Get(r, "id") == Num(n)
    ensures FromRecord(r) == None
  {
  }

  /** `mileage` may be left out of an automotive advertisement. */
  lemma MileageIsOptional(b: Base, brand: string, model: string, year: int)
    ensures "mileage" !in ToRecord(AutomotiveAd(b, brand, model, year, None))
    ensures FromRecord(ToRecord(AutomotiveAd(b, brand, model, year, None))).Some?
  {
    FromToRecord(AutomotiveAd(b, brand, model, year, None));
  }
}
