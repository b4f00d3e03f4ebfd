/**
 * The server's in-memory item store: create-time validation, the record
 * a successful create stores, lookup by the id parsed from the path,
 * shallow-merge update and delete, over an ordered array of records and a
 * closure counter that hands out ids.
 */
module ItemStore {
  import opened Wrappers
  import opened JsValue
  import opened JsBuiltins
  import opened Advertisement

  // ---------------------------------------------------------------------
  // ItemTypes and validation
  // ---------------------------------------------------------------------

  /** The server's own table of category names. */
  const REAL_ESTATE: string := "Недвижимость"
  const AUTO: string := "Авто"
  const SERVICES: string := "Услуги"

  /** The server's names are the client's category literals. */
  lemma ItemTypesAreLabels()
    ensures REAL_ESTATE == Label(RealEstate) && AUTO == Label(Auto) && SERVICES == Label(Services)
  {
  }

  datatype ValidationError =
    | MissingCommonFields
    | MissingCategoryFields(category: AdvertisementType)
    | InvalidType

  datatype Verdict = Accepted(category: AdvertisementType) | Rejected(error: ValidationError)

  /** The `error` text of the 400 response for each rejection. */
  function ErrorMessage(e: ValidationError): string
  {
    match e
    case MissingCommonFields => "Missing required common fields"
    case MissingCategoryFields(RealEstate) => "Missing required fields for Real estate"
    case MissingCategoryFields(Auto) => "Missing required fields for Auto"
    case MissingCategoryFields(Services) => "Missing required fields for Services"
    case InvalidType => "Invalid type"
  }

  /** Each rejection has its own message, so a client can tell them apart by text. */
  lemma ErrorMessagesDistinct(e1: ValidationError, e2: ValidationError)
    requires e1 != e2
    ensures ErrorMessage(e1) != ErrorMessage(e2)
  {
  }

  /** The properties destructured out of the body before `...rest`. */
  const CommonFields: seq<string> := ["name", "description", "location", "type"]

  /** The properties each category insists on, as a table. */
  function RequiredFields(t: AdvertisementType): seq<string>
  {
    match t
    case RealEstate => ["propertyType", "area", "rooms", "price"]
    case Auto => ["brand", "model", "year", "mileage"]
    case Services => ["serviceType", "experience", "cost"]
  }

  predicate AllTruthy(body: Record, fields: seq<string>)
  {
    forall i :: 0 <= i < |fields| ==> Truthy(Get(body, fields[i]))
  }

  lemma AllTruthyOfFour(body: Record, a: string, b: string, c: string, d: string)
    ensures AllTruthy(body, [a, b, c, d]) <==>
      Truthy(Get(body, a)) && Truthy(Get(body, b)) && Truthy(Get(body, c)) && Truthy(Get(body, d))
  {
    var fs := [a, b, c, d];
    if AllTruthy(body, fs) {
      assert Truthy(Get(body, fs[0])) && Truthy(Get(body, fs[1]));
      assert Truthy(Get(body, fs[2])) && Truthy(Get(body, fs[3]));
    }
    if Truthy(Get(body, a)) && Truthy(Get(body, b)) && Truthy(Get(body, c)) && Truthy(Get(body, d)) {
      forall i | 0 <= i < 4 ensures Truthy(Get(body, fs[i])) { }
    }
  }

  lemma AllTruthyOfThree(body: Record, a: string, b: string, c: string)
    ensures AllTruthy(body, [a, b, c]) <==> Truthy(Get(body, a)) && Truthy(Get(body, b)) && Truthy(Get(body, c))
  {
    var fs := [a, b, c];
    if AllTruthy(body, fs) {
      assert Truthy(Get(body, fs[0])) && Truthy(Get(body, fs[1])) && Truthy(Get(body, fs[2]));
    }
    if Truthy(Get(body, a)) && Truthy(Get(body, b)) && Truthy(Get(body, c)) {
      forall i | 0 <= i < 3 ensures Truthy(Get(body, fs[i])) { }
    }
  }

  /** Reading a category property from `...rest` is reading it from the body. */
  lemma RestAgrees(body: Record)
    ensures forall k :: k !in {"name", "description", "location", "type"} ==>
      Get(body - {"name", "description", "location", "type"}, k) == Get(body, k)
  {
  }

  /**
   * The checks of the POST handler, in its order: the four common
   * properties must be truthy, then `type` selects the category whose
   * properties must be truthy, and any other `type` is invalid.
   */
  function Validate(body: Record): Verdict
  {
    var name, description, location, type_ :=
      Get(body, "name"), Get(body, "description"), Get(body, "location"), Get(body, "type");
    var rest := body - {"name", "description", "location", "type"};
    if !Truthy(name) || !Truthy(description) || !Truthy(location) || !Truthy(type_) then
      Rejected(MissingCommonFields)
    else if type_ == Str(REAL_ESTATE) then
      if !Truthy(Get(rest, "propertyType")) || !Truthy(Get(rest, "area"))
        || !Truthy(Get(rest, "rooms")) || !Truthy(Get(rest, "price"))
      then Rejected(MissingCategoryFields(RealEstate))
      else Accepted(RealEstate)
    else if type_ == Str(AUTO) then
      if !Truthy(Get(rest, "brand")) || !Truthy(Get(rest, "model"))
        || !Truthy(Get(rest, "year")) || !Truthy(Get(rest, "mileage"))
      then Rejected(MissingCategoryFields(Auto))
      else Accepted(Auto)
    else if type_ == Str(SERVICES) then
      if !Truthy(Get(rest, "serviceType")) || !Truthy(Get(rest, "experience")) || !Truthy(Get(rest, "cost"))
      then Rejected(MissingCategoryFields(Services))
      else Accepted(Services)
    else
      Rejected(InvalidType)
  }

  /**
   * What Validate decides, stated against the table of required fields:
   * which rejection a body gets, and that it is accepted exactly when the
   * common fields and those of the category its `type` names are truthy.
   */
  lemma ValidateSpec(body: Record)
    ensures Validate(body) == Rejected(MissingCommonFields) <==> !AllTruthy(body, CommonFields)
    ensures forall t :: Validate(body) == Accepted(t) <==>
      AllTruthy(body, CommonFields) && ReadType(body) == Some(t) && AllTruthy(body, RequiredFields(t))
    ensures forall t :: Validate(body) == Rejected(MissingCategoryFields(t)) <==>
      AllTruthy(body, CommonFields) && ReadType(body) == Some(t) && !AllTruthy(body, RequiredFields(t))
    ensures Validate(body) == Rejected(InvalidType) <==> AllTruthy(body, CommonFields) && ReadType(body) == None
  {
    AllTruthyOfFour(body, "name", "description", "location", "type");
    if AllTruthy(body, CommonFields) {
      var t := ReadType(body);
      if t.Some? {
        ValidateCategory(body, t.value);
      } else {
        ValidateInvalidType(body);
      }
    }
  }

  /** The category branch a body with truthy common fields and a known `type` takes. */
  lemma ValidateCategory(body: Record, t: AdvertisementType)
    requires AllTruthy(body, CommonFields)
    requires ReadType(body) == Some(t)
    ensures Validate(body) == if AllTruthy(body, RequiredFields(t)) then Accepted(t) else Rejected(MissingCategoryFields(t))
  {
    AllTruthyOfFour(body, "name", "description", "location", "type");
    RestAgrees(body);
    assert Get(body, "type") == Str(Label(t));
    match t
    case RealEstate => AllTruthyOfFour(body, "propertyType", "area", "rooms", "price");
    case Auto => AllTruthyOfFour(body, "brand", "model", "year", "mileage");
    case Services => AllTruthyOfThree(body, "serviceType", "experience", "cost");
  }

  lemma ValidateInvalidType(body: Record)
    requires AllTruthy(body, CommonFields)
    requires ReadType(body) == None
    ensures Validate(body) == Rejected(InvalidType)
  {
    AllTruthyOfFour(body, "name", "description", "location", "type");
    var ty := Get(body, "type");
    assert ty != Str(REAL_ESTATE) && ty != Str(AUTO) && ty != Str(SERVICES) by {
      if ty.Str? { assert FromLabel(ty.s) == None; }
    }
  }

  /** An automotive body with `mileage: 0` is rejected, although every other field is given. */
  lemma ZeroMileageRejected(body: Record)
    requires AllTruthy(body, CommonFields) && ReadType(body) == Some(Auto)
    requires Get(body, "mileage") == Num(0)
    ensures Validate(body) == Rejected(MissingCategoryFields(Auto))
  {
    ValidateCategory(body, Auto);
    assert !Truthy(Get(body, RequiredFields(Auto)[3]));
  }

  /**
   * Which client advertisements the server accepts: the strings it checks
   * must be non-empty and the numbers non-zero, and an automotive one must
   * carry a non-zero mileage although the client type makes it optional.
   */
  lemma ValidateAdvertisement(ad: Advertisement)
    ensures Validate(ToRecord(ad)) == Accepted(TypeOf(ad)) <==>
      && ad.base.name != "" && ad.base.description != "" && ad.base.location != ""
      && match ad
         case RealEstateAd(_, propertyType, area, rooms, price) =>
           propertyType != "" && area != 0 && rooms != 0 && price != 0
         case AutomotiveAd(_, brand, model, year, mileage) =>
           brand != "" && model != "" && year != 0 && mileage.Some? && mileage.value != 0
         case ServicesAd(_, serviceType, experience, cost, _) =>
           serviceType != "" && experience != 0 && cost != 0
  {
    ValidateAdvertisementBase(ad);
    match ad
    case RealEstateAd(_, _, _, _, _) => RealEstateFieldsTruthy(ad);
    case AutomotiveAd(_, _, _, _, _) => AutomotiveFieldsTruthy(ad);
    case ServicesAd(_, _, _, _, _) => ServicesFieldsTruthy(ad);
  }

  lemma RealEstateFieldsTruthy(ad: Advertisement)
    requires ad.RealEstateAd?
    ensures AllTruthy(ToRecord(ad), RequiredFields(RealEstate)) <==>
      ad.propertyType != "" && ad.area != 0 && ad.rooms != 0 && ad.price != 0
  {
    AllTruthyOfFour(ToRecord(ad), "propertyType", "area", "rooms", "price");
    ReadRealEstateOfToRecord(ad);
  }

  lemma AutomotiveFieldsTruthy(ad: Advertisement)
    requires ad.AutomotiveAd?
    ensures AllTruthy(ToRecord(ad), RequiredFields(Auto)) <==>
      ad.brand != "" && ad.model != "" && ad.year != 0 && ad.mileage.Some? && ad.mileage.value != 0
  {
    AllTruthyOfFour(ToRecord(ad), "brand", "model", "year", "mileage");
    ReadAutomotiveOfToRecord(ad);
  }

  lemma ServicesFieldsTruthy(ad: Advertisement)
    requires ad.ServicesAd?
    ensures AllTruthy(ToRecord(ad), RequiredFields(Services)) <==>
      ad.serviceType != "" && ad.experience != 0 && ad.cost != 0
  {
    AllTruthyOfThree(ToRecord(ad), "serviceType", "experience", "cost");
    ReadServicesOfToRecord(ad);
  }

  /** The common part: an encoded ad is accepted when its three strings are non-empty and its category fields truthy. */
  lemma ValidateAdvertisementBase(ad: Advertisement)
    ensures Validate(ToRecord(ad)) == Accepted(TypeOf(ad)) <==>
      && ad.base.name != "" && ad.base.description != "" && ad.base.location != ""
      && AllTruthy(ToRecord(ad), RequiredFields(TypeOf(ad)))
  {
    var r := ToRecord(ad);
    ReadBaseOfToRecord(ad);
    assert ReadType(r) == Some(TypeOf(ad)) by {
      assert FromLabel(Label(TypeOf(ad))) == Some(TypeOf(ad));
    }
    AllTruthyOfFour(r, "name", "description", "location", "type");
    ValidateSpec(r);
    var b := ad.base;
    assert Get(r, "description") == Str(b.description) && Get(r, "location") == Str(b.location);
  }


  // ---------------------------------------------------------------------
  // The record a successful create stores
  // ---------------------------------------------------------------------

  predicate CommonFieldsPresent(body: Record)
  {
    "name" in body && "description" in body && "location" in body && "type" in body
  }

  lemma AcceptedHasCommonFields(body: Record)
    requires Validate(body).Accepted?
    ensures CommonFieldsPresent(body)
  {
  }

  /**
   * `{ id, name, description, location, type, ...rest }`: every submitted
   * property is kept verbatim, and `id` is the counter's value unless the
   * body carries its own `id`, which `...rest` spreads over it.
   */
  function BuildItem(body: Record, id: nat): (item: Record)
    requires CommonFieldsPresent(body)
    ensures item.Keys == body.Keys + {"id"}
    ensures forall k :: k in body ==> item[k] == body[k]
    ensures "id" !in body ==> item["id"] == Num(id)
    ensures item == map["id" := Num(id)] + body
  {
    var rest := body - {"name", "description", "location", "type"};
    map["id" := Num(id), "name" := body["name"], "description" := body["description"],
        "location" := body["location"], "type" := body["type"]] + rest
  }

  /** A record built from a body without `id` carries the counter's number, so it is not an `Advertisement`. */
  lemma BuiltItemIsNotAdvertisement(body: Record, id: nat)
    requires CommonFieldsPresent(body) && "id" !in body
    ensures FromRecord(BuildItem(body, id)) == None
  {
    NumericIdIsNotAdvertisement(BuildItem(body, id), id);
  }

  /**
   * A body that is an advertisement's object with a string `id` keeps that
   * `id` over the counter's, so the stored record decodes to the advertisement.
   */
  lemma BuiltItemWithStringId(ad: Advertisement, id: nat)
    requires ad.base.id.Some?
    ensures CommonFieldsPresent(ToRecord(ad))
    ensures BuildItem(ToRecord(ad), id) == ToRecord(ad)
    ensures FromRecord(BuildItem(ToRecord(ad), id)) == Some(ad)
  {
    var r := ToRecord(ad);
    assert "id" in r;
    assert BuildItem(r, id) == r;
    FromToRecord(ad);
  }

  // ---------------------------------------------------------------------
  // Lookup: items.find / items.findIndex with i.id === parseInt(id, 10)
  // ---------------------------------------------------------------------

  /** `i.id === n` for the parsed path id; NaN (None) equals nothing. */
  predicate HasId(item: Record, target: Option<int>)
  {
    target.Some? && Get(item, "id") == Num(target.value)
  }

  /** The index of the first record whose id matches, as findIndex returns it (None for -1). */
  function FindFirst(items: seq<Record>, target: Option<int>): (r: Option<nat>)
    ensures r.Some? ==> r.value < |items| && HasId(items[r.value], target)
    ensures r.Some? ==> forall j :: 0 <= j < r.value ==> !HasId(items[j], target)
    ensures r.None? ==> forall j :: 0 <= j < |items| ==> !HasId(items[j], target)
  {
    if items == [] then None
    else if HasId(items[0], target) then Some(0)
    else
      match FindFirst(items[1..], target)
      case None => None
      case Some(k) => Some(k + 1)
  }

  /** A path that has no digit after white space and a sign parses to NaN and matches no record. */
  lemma NoDigitsNeverMatches(items: seq<Record>, idParam: string)
    requires var u := DropSign(TrimStart(idParam)); u == [] || !IsDigit(u[0])
    ensures FindFirst(items, ParseInt(idParam)) == None
  {
    ParseIntNoDigits(idParam);
  }

  /** Looking up in a concatenation: the first part wins, otherwise the index is shifted past it. */
  lemma {:induction false} FindFirstConcat(items: seq<Record>, extra: seq<Record>, target: Option<int>)
    ensures FindFirst(items + extra, target) ==
      if FindFirst(items, target).Some? then FindFirst(items, target)
      else match FindFirst(extra, target)
        case None => None
        case Some(k) => Some(|items| + k)
  {
    if items != [] {
      assert (items + extra)[0] == items[0];
      if !HasId(items[0], target) {
        assert (items + extra)[1..] == items[1..] + extra;
        FindFirstConcat(items[1..], extra, target);
      }
    } else {
      assert items + extra == extra;
    }
  }

  /** A created record is found by its id exactly when no earlier record carries that id. */
  lemma CreatedIsFound(items: seq<Record>, item: Record, n: int)
    requires Get(item, "id") == Num(n)
    ensures FindFirst(items + [item], Some(n)) ==
      if FindFirst(items, Some(n)).Some? then FindFirst(items, Some(n)) else Some(|items|)
  {
    FindFirstConcat(items, [item], Some(n));
    assert FindFirst([item], Some(n)) == Some(0);
  }

  // ---------------------------------------------------------------------
  // Update and delete
  // ---------------------------------------------------------------------

  /** `Object.assign(item, body)`: the body's properties override, the others stay. */
  function Merge(item: Record, body: Record): (r: Record)
    ensures r.Keys == item.Keys + body.Keys
    ensures forall k :: k in body ==> r[k] == body[k]
    ensures forall k :: k in item && k !in body ==> r[k] == item[k]
  {
    item + body
  }

  /** `items.splice(k, 1)`. */
  function RemoveAt(items: seq<Record>, k: nat): (r: seq<Record>)
    requires k < |items|
    ensures |r| == |items| - 1
    ensures forall i :: 0 <= i < k ==> r[i] == items[i]
    ensures forall i :: k <= i < |r| ==> r[i] == items[i + 1]
  {
    items[..k] + items[k + 1..]
  }

  /** Deleting the only record with an id leaves none: a second delete of it finds nothing. */
  lemma RemoveOnlyMatch(items: seq<Record>, target: Option<int>, k: nat)
    requires k < |items| && HasId(items[k], target)
    requires forall j :: 0 <= j < |items| && j != k ==> !HasId(items[j], target)
    ensures FindFirst(RemoveAt(items, k), target) == None
  {
    var r := RemoveAt(items, k);
    forall j | 0 <= j < |r| ensures !HasId(r[j], target) {
      if j >= k { assert r[j] == items[j + 1]; }
    }
  }

  /** The three clauses of `FindFirst`'s contract pin its result down. */
  lemma FindFirstIsFirst(items: seq<Record>, target: Option<int>, k: nat)
    requires k < |items| && HasId(items[k], target)
    requires forall j :: 0 <= j < k ==> !HasId(items[j], target)
    ensures FindFirst(items, target) == Some(k)
  {
  }

  /** A merge whose body has no `id` keeps the record at the same place in the lookup. */
  lemma FindFirstAfterMerge(items: seq<Record>, target: Option<int>, k: nat, body: Record)
    requires FindFirst(items, target) == Some(k) && "id" !in body
    ensures FindFirst(items[k := Merge(items[k], body)], target) == Some(k)
  {
    var r := items[k := Merge(items[k], body)];
    assert Get(r[k], "id") == Get(items[k], "id");
    assert forall j :: 0 <= j < k ==> r[j] == items[j];
    FindFirstIsFirst(r, target, k);
  }

  /** After removing the first match, the lookup finds the next record with that id, if any. */
  lemma FindFirstAfterRemove(items: seq<Record>, target: Option<int>, k: nat)
    requires FindFirst(items, target) == Some(k)
    ensures FindFirst(RemoveAt(items, k), target) ==
      match FindFirst(items[k + 1..], target)
      case None => None
      case Some(j) => Some(k + j)
  {
    assert RemoveAt(items, k) == items[..k] + items[k + 1..];
    FindFirstConcat(items[..k], items[k + 1..], target);
    assert forall j :: 0 <= j < k ==> items[..k][j] == items[j];
    assert FindFirst(items[..k], target) == None;
  }

  // ---------------------------------------------------------------------
  // The seed data
  // ---------------------------------------------------------------------

  /** The ten records the array starts with, ids 1 to 10, some of them malformed. */
  function Seed(): seq<Record>
  {
    [ map["id" := Num(1), "name" := Str("Продам квартиру в центре города"),
          "description" := Str("Квартира с видом на парк и бассейн."),
          "location" := Str("Москва, ул. Пушкина, д. 5"), "type" := Str(REAL_ESTATE),
          "propertyType" := Str("Квартира"), "area" := Num(80), "rooms" := Num(2), "price" := Num(600000)],
      map["id" := Num(2), "name" := Str("Продажа автомобиля BMW X5"), "brand" := Str("BMW"),
          "model" := Str("X5"), "year" := Num(2019), "mileage" := Num(20000), "price" := Num(75000),
          "type" := Str(AUTO)],
      map["id" := Num(3), "name" := Str("Почистить окна"), "serviceType" := Str("Очистка окон"),
          "experience" := Str("Более 5 лет опыта"), "cost" := Num(150), "type" := Str(SERVICES)],
      map["id" := Num(4), "name" := Str("Ремонт компьютера"), "serviceType" := Str("Ремонт компьютеров"),
          "experience" := Str("Более 10 лет опыта"), "cost" := Num(200), "type" := Str(SERVICES)],
      map["id" := Num(5), "name" := Str("Сделать ремонт в квартире"),
          "description" := Str("Необходимо выполнить полный ремонт в квартире."),
          "location" := Str("СПб, ул. Ленина, д. 10"), "propertyType" := Str("Квартира"),
          "area" := Num(90), "rooms" := Num(3), "price" := Num(800000), "type" := Str(SERVICES)],
      map["id" := Num(6), "name" := Str("Продажа машины Toyota Camry"), "brand" := Str("Toyota"),
          "model" := Str("Camry"), "year" := Num(2021), "mileage" := Num(15000), "price" := Num(85000),
          "type" := Str(AUTO)],
      map["id" := Num(7), "name" := Str("Заказать курьерскую доставку"),
          "serviceType" := Str("Доставка товаров"), "deliveryTime" := Str("В течение дня"),
          "cost" := Num(50), "type" := Str(SERVICES)],
      map["id" := Num(8), "name" := Str("Продажа жилого дома"),
          "description" := Str("Жилое помещение с хорошей отделкой и удобной мебелью."),
          "location" := Str("Москва, ул. Мира, д. 15"), "type" := Str(REAL_ESTATE),
          "propertyType" := Str("Дом"), "area" := Num(200), "rooms" := Num(4), "price" := Num(1500000)],
      map["id" := Num(9), "name" := Str("Продажа автомобиля Audi A4"), "brand" := Str("Audi"),
          "model" := Str("A4"), "year" := Num(2020), "mileage" := Num(30000), "price" := Num(95000),
          "type" := Str(AUTO)],
      map["id" := Num(10), "name" := Str("Приготовить еду"), "serviceType" := Str("Готовка пищи"),
          "cuisineStyle" := Str("Итальянская кухня"), "costPerPerson" := Num(50), "type" := Str(SERVICES)]
    ]
  }

  /** Seed record i+1 sits at index i, so the seed ids 1..10 are distinct. */
  lemma SeedIds()
    ensures |Seed()| == 10
    ensures forall i :: 0 <= i < 10 ==> Get(Seed()[i], "id") == Num(i + 1)
  {
  }

  /** No seed record is an `Advertisement` as the client types it: each has a numeric `id`. */
  lemma SeedAreNotAdvertisements(i: nat)
    requires i < 10
    ensures FromRecord(Seed()[i]) == None
  {
    SeedIds();
    NumericIdIsNotAdvertisement(Seed()[i], i + 1);
  }

  /** In the seed, id n is at index n-1, and ids outside 1..10 are absent. */
  lemma SeedLookup(n: int)
    ensures FindFirst(Seed(), Some(n)) == if 1 <= n <= 10 then Some(n - 1) else None
  {
    SeedIds();
    var r := FindFirst(Seed(), Some(n));
    if 1 <= n <= 10 {
      assert HasId(Seed()[n - 1], Some(n));
    }
  }

  /**
   * A record appended after the seed with an id in 1..10 is shadowed: get,
   * update and delete of that id reach the seed record.
   */
  lemma SeedShadows(extra: seq<Record>, n: int)
    requires 1 <= n <= 10
    ensures FindFirst(Seed() + extra, Some(n)) == Some(n - 1)
  {
    SeedLookup(n);
    FindFirstConcat(Seed(), extra, Some(n));
  }

  /** An id outside 1..10 that no appended record carries is not found. */
  lemma AbsentAfterSeed(extra: seq<Record>, n: int)
    requires n < 1 || 10 < n
    requires forall j :: 0 <= j < |extra| ==> !HasId(extra[j], Some(n))
    ensures FindFirst(Seed() + extra, Some(n)) == None
  {
    SeedLookup(n);
    AbsentFromBoth(Seed(), extra, Some(n));
  }

  /** No match in either part means no match in the concatenation. */
  lemma AbsentFromBoth(items: seq<Record>, extra: seq<Record>, target: Option<int>)
    requires FindFirst(items, target) == None
    requires forall j :: 0 <= j < |extra| ==> !HasId(extra[j], target)
    ensures FindFirst(items + extra, target) == None
  {
    FindFirstConcat(items, extra, target);
  }


  /** A record without a `description` fails the common check, whatever else it holds. */
  lemma NoDescriptionRejected(body: Record)
    requires "description" !in body
    ensures Validate(body) == Rejected(MissingCommonFields)
  {
    assert !Truthy(Get(body, "description"));
  }

  /** Seed record 1, a flat, is a well-formed real-estate record. */
  lemma SeedFlatAccepted()
    ensures Validate(Seed()[0]) == Accepted(RealEstate)
  {
    var s := Seed();
    assert Validate(s[0]) == Accepted(RealEstate);
  }

  /** Seed record 8, a house, is a well-formed real-estate record. */
  lemma SeedHouseAccepted()
    ensures Validate(Seed()[7]) == Accepted(RealEstate)
  {
    var s := Seed();
    assert Validate(s[7]) == Accepted(RealEstate);
  }


  /** Seed record 5 has the common fields but is typed as a service without service fields. */
  lemma SeedServicesRejected()
    ensures Validate(Seed()[4]) == Rejected(MissingCategoryFields(Services))
  {
    var s := Seed();
    assert Validate(s[4]) == Rejected(MissingCategoryFields(Services));
  }

  /** The other seven seed records lack a description and would fail the common check. */
  lemma SeedMissingCommon()
    ensures forall i :: i in {1, 2, 3, 5, 6, 8, 9} ==> Validate(Seed()[i]) == Rejected(MissingCommonFields)
  {
    var s := Seed();
    forall i | i in {1, 2, 3, 5, 6, 8, 9} ensures Validate(s[i]) == Rejected(MissingCommonFields) {
      assert "description" !in s[i];
      NoDescriptionRejected(s[i]);
    }
  }


  // ---------------------------------------------------------------------
  // The store
  // ---------------------------------------------------------------------

  /** The id counter made by makeCounter: each call returns the count, then increments it. */
  class Counter {
    var count: nat

    constructor ()
      ensures count == 0
    {
      count := 0;
    }

    method Next() returns (v: nat)
      modifies this
      ensures v == old(count) && count == old(count) + 1
    {
      v := count;
      count := count + 1;
    }
  }

  /** The response of a handler: its status is 201, 400, 200, 204 or 404. */
  datatype Response =
    | Created(item: Record)
    | Invalid(error: ValidationError)
    | Found(item: Record)
    | Updated(item: Record)
    | Deleted
    | NotFound

  function StatusCode(r: Response): int
  {
    match r
    case Created(_) => 201
    case Invalid(_) => 400
    case Found(_) => 200
    case Updated(_) => 200
    case Deleted => 204
    case NotFound => 404
  }

  /** A request succeeds with a 2xx status exactly when its record was found or its body was valid. */
  lemma StatusClasses(r: Response)
    ensures 200 <= StatusCode(r) < 300 <==> !r.Invalid? && !r.NotFound?
    ensures StatusCode(r) == 400 <==> r.Invalid?
    ensures StatusCode(r) == 404 <==> r.NotFound?
  {
  }

  /** The process-wide item array and its counter; `issued` records the ids the counter gave out. */
  class Store {
    var items: seq<Record>
    const counter: Counter
    ghost var issued: seq<nat>

    /** The counter never gives out an id twice: its ids rise and stay below the count. */
    ghost predicate Valid()
      reads this, counter
    {
      && (forall i, j :: 0 <= i < j < |issued| ==> issued[i] < issued[j])
      && (forall i :: 0 <= i < |issued| ==> issued[i] < counter.count)
    }

    constructor ()
      ensures Valid() && fresh(counter)
      ensures items == Seed() && counter.count == 0 && issued == []
    {
      items := Seed();
      counter := new Counter();
      issued := [];
    }

    /** POST /items. */
    method Create(body: Record) returns (r: Response)
      requires Valid()
      modifies this, counter
      ensures Valid()
      ensures Validate(body).Rejected? ==>
        && r == Invalid(Validate(body).error)
        && items == old(items) && counter.count == old(counter.count) && issued == old(issued)
      ensures Validate(body).Accepted? ==>
        && r == Created(BuildItem(body, old(counter.count)))
        && items == old(items) + [r.item]
        && counter.count == old(counter.count) + 1
        && issued == old(issued) + [old(counter.count)]
    {
      var verdict := Validate(body);
      if verdict.Rejected? {
        return Invalid(verdict.error);
      }
      var id := counter.Next();
      var item := BuildItem(body, id);
      items := items + [item];
      issued := issued + [id];
      r := Created(item);
    }

    /** GET /items. */
    method List() returns (r: seq<Record>)
      ensures r == items
    {
      r := items;
    }

    /** GET /items/:id: the first record whose id is the number the path starts with. */
    method GetById(idParam: string) returns (r: Response)
      ensures var k := FindFirst(items, ParseInt(idParam));
        if k.Some? then r == Found(items[k.value]) else r == NotFound
      ensures r.Found? ==> r.item in items && HasId(r.item, ParseInt(idParam))
    {
      var k := FindFirst(items, ParseInt(idParam));
      if k.Some? {
        r := Found(items[k.value]);
      } else {
        r := NotFound;
      }
    }

    /** PUT /items/:id: merges the body into the first matching record, without validation. */
    method Update(idParam: string, body: Record) returns (r: Response)
      requires Valid()
      modifies this
      ensures Valid()
      ensures counter.count == old(counter.count) && issued == old(issued)
      ensures var k := FindFirst(old(items), ParseInt(idParam));
        if k.Some? then
          && items == old(items)[k.value := Merge(old(items)[k.value], body)]
          && r == Updated(items[k.value])
        else
          items == old(items) && r == NotFound
    {
      var k := FindFirst(items, ParseInt(idParam));
      if k.Some? {
        var merged := Merge(items[k.value], body);
        items := items[k.value := merged];
        r := Updated(merged);
      } else {
        r := NotFound;
      }
    }

    /** DELETE /items/:id: removes the first matching record. */
    method Delete(idParam: string) returns (r: Response)
      requires Valid()
      modifies this
      ensures Valid()
      ensures counter.count == old(counter.count) && issued == old(issued)
      ensures var k := FindFirst(old(items), ParseInt(idParam));
        if k.Some? then items == RemoveAt(old(items), k.value) && r == Deleted
        else items == old(items) && r == NotFound
    {
      var k := FindFirst(items, ParseInt(idParam));
      if k.Some? {
        items := RemoveAt(items, k.value);
        r := Deleted;
      } else {
        r := NotFound;
      }
    }
  }

  /** A complete automotive body without an `id`. */
  function CarBody(): Record
  {
    map["name" := Str("X"), "description" := Str("Y"), "location" := Str("Z"),
        "type" := Str(AUTO), "brand" := Str("BMW"), "model" := Str("X5"),
        "year" := Num(2019), "mileage" := Num(1000)]
  }

  lemma CarBodyAccepted()
    ensures Validate(CarBody()) == Accepted(Auto) && "id" !in CarBody()
  {
    ValidateCategory(CarBody(), Auto);
  }
}
