/** The property store: an ordered list of managed properties with a
    selection and the `loading`/`error` flags; the active and by-type
    getters, lookup by id, and the actions. */
module Properties {
  import opened Options
  import opened Seqs
  import opened Entities

  datatype PropertyType = Residential | Commercial | VacationRental | Hotel
  datatype PropertyStatus = PropertyActive | PropertyInactive
  datatype Frequency = Daily | Weekly | Biweekly | Monthly | Custom
  datatype ContactMethod = ByEmail | ByPhone | ByText

  datatype Address = Address(street: string, city: string, state: string, zipCode: string, country: string)
  datatype CleaningRequirements = CleaningRequirements(
    frequency: Frequency, customFrequency: Option<string>, specialInstructions: seq<string>,
    requiredSupplies: seq<string>, estimatedDuration: int)
  datatype Contact = Contact(name: string, email: string, phone: string, preferred: ContactMethod)

  /** A property apart from its id and timestamps; the location is left out. */
  datatype PropertyData = PropertyData(
    name: string,
    address: Address,
    kind: PropertyType,
    cleaningRequirements: CleaningRequirements,
    contact: Contact,
    accessInstructions: string,
    colorCode: string,
    status: PropertyStatus)

  type Property = Record<PropertyData>

  /** `Partial<Property>` without the shared fields. */
  datatype PropertyUpdates = PropertyUpdates(
    name: Option<string>,
    address: Option<Address>,
    kind: Option<PropertyType>,
    cleaningRequirements: Option<CleaningRequirements>,
    contact: Option<Contact>,
    accessInstructions: Option<string>,
    colorCode: Option<string>,
    status: Option<PropertyStatus>)

  type PropertyPatch = Patch<PropertyUpdates>

  // ---------------------------------------------------------------- getters

  /** activeProperties: the active properties, in list order. */
  function ActiveProperties(properties: seq<Property>): (r: seq<Property>)
    ensures forall p :: p in r <==> p in properties && p.data.status == PropertyActive
    ensures |r| <= |properties|
  {
    Filter(properties, (p: Property) => p.data.status == PropertyActive)
  }

  /** getPropertiesByType: the properties of one type, in list order. */
  function PropertiesByType(properties: seq<Property>, kind: PropertyType): (r: seq<Property>)
    ensures forall p :: p in r <==> p in properties && p.data.kind == kind
    ensures |r| <= |properties|
  {
    Filter(properties, (p: Property) => p.data.kind == kind)
  }

  /** Both getters keep the list order. */
  lemma GettersKeepOrder(properties: seq<Property>, kind: PropertyType)
    ensures IsSubsequence(ActiveProperties(properties), properties)
    ensures IsSubsequence(PropertiesByType(properties, kind), properties)
  {
    FilterIsSubsequence(properties, (p: Property) => p.data.status == PropertyActive);
    FilterIsSubsequence(properties, (p: Property) => p.data.kind == kind);
  }

  /** The part the first property contributes to the getter of one type. */
  function HeadPart(p: Property, kind: PropertyType): multiset<Property> {
    if p.data.kind == kind then multiset{p} else multiset{}
  }

  lemma PropertiesByTypeCons(properties: seq<Property>, kind: PropertyType)
    requires properties != []
    ensures multiset(PropertiesByType(properties, kind))
         == HeadPart(properties[0], kind) + multiset(PropertiesByType(properties[1..], kind))
  {
    assert PropertiesByType(properties, kind)
        == (if properties[0].data.kind == kind then [properties[0]] else []) + PropertiesByType(properties[1..], kind);
  }

  /** The four by-type lists split the property list: together they hold
      each property exactly once. */
  lemma {:induction false} TypeGettersPartition(properties: seq<Property>)
    ensures multiset(PropertiesByType(properties, Residential)) + multiset(PropertiesByType(properties, Commercial))
          + multiset(PropertiesByType(properties, VacationRental)) + multiset(PropertiesByType(properties, Hotel))
         == multiset(properties)
  {
    if properties != [] {
      var p, rest := properties[0], properties[1..];
      TypeGettersPartition(rest);
      PropertiesByTypeCons(properties, Residential);
      PropertiesByTypeCons(properties, Commercial);
      PropertiesByTypeCons(properties, VacationRental);
      PropertiesByTypeCons(properties, Hotel);
      var a, b, c, d := multiset(PropertiesByType(rest, Residential)), multiset(PropertiesByType(rest, Commercial)),
        multiset(PropertiesByType(rest, VacationRental)), multiset(PropertiesByType(rest, Hotel));
      var h1, h2, h3, h4 := HeadPart(p, Residential), HeadPart(p, Commercial), HeadPart(p, VacationRental),
        HeadPart(p, Hotel);
      HeadPartsSum(p);
      Regroup(h1, h2, h3, h4, a, b, c, d);
      MultisetCons(properties);
    }
  }

  lemma HeadPartsSum(p: Property)
    ensures HeadPart(p, Residential) + HeadPart(p, Commercial) + HeadPart(p, VacationRental)
          + HeadPart(p, Hotel) == multiset{p}
  {
  }

  lemma Regroup<T>(h1: multiset<T>, h2: multiset<T>, h3: multiset<T>, h4: multiset<T>,
                   a: multiset<T>, b: multiset<T>, c: multiset<T>, d: multiset<T>)
    ensures (h1 + a) + (h2 + b) + (h3 + c) + (h4 + d) == (h1 + h2 + h3 + h4) + (a + b + c + d)
  {
  }

  // ---------------------------------------------------------------- updates

  /** `{...property, ...updates, updatedAt: now}`. */
  function MergeProperty(property: Property, patch: PropertyPatch, now: int): Property {
    var u := patch.data;
    var d := property.data;
    Merge(property, patch, PropertyData(
      u.name.GetOr(d.name),
      u.address.GetOr(d.address),
      u.kind.GetOr(d.kind),
      u.cleaningRequirements.GetOr(d.cleaningRequirements),
      u.contact.GetOr(d.contact),
      u.accessInstructions.GetOr(d.accessInstructions),
      u.colorCode.GetOr(d.colorCode),
      u.status.GetOr(d.status)), now)
  }

  const NoPropertyUpdates := PropertyUpdates(None, None, None, None, None, None, None, None)

  /** An empty update only refreshes `updatedAt`; merging the same update
      twice is merging it once. */
  lemma MergePropertyProperties(property: Property, patch: PropertyPatch, now: int)
    ensures MergeProperty(property, Patch(None, None, None, NoPropertyUpdates), now) == property.(updatedAt := now)
    ensures MergeProperty(MergeProperty(property, patch, now), patch, now) == MergeProperty(property, patch, now)
  {
  }

  /** The property list after `updateProperty`. */
  function PropertiesAfterUpdate(properties: seq<Property>, id: string, patch: PropertyPatch, now: int): seq<Property> {
    ApplyFirst(properties, id, (p: Property) => MergeProperty(p, patch, now))
  }

  /** Adding a property under a fresh id makes it the one found by that id,
      and it is among the active properties exactly when it is active. */
  lemma FindAfterAdd(properties: seq<Property>, data: PropertyData, freshId: string, now: int)
    requires !HasId(properties, freshId)
    ensures FindById(properties + [Stamp(data, freshId, now)], freshId) == Some(Stamp(data, freshId, now))
    ensures Stamp(data, freshId, now) in ActiveProperties(properties + [Stamp(data, freshId, now)])
        <==> data.status == PropertyActive
  {
    FindAfterAppend(properties, Stamp(data, freshId, now), freshId);
  }

  // ---------------------------------------------------------------- the store

  class PropertyStore {
    var properties: seq<Property>
    var selectedProperty: Option<Property>
    var loading: bool
    var error: Option<string>

    constructor ()
      ensures properties == [] && selectedProperty == None && !loading && error == None
    {
      properties := [];
      selectedProperty := None;
      loading := false;
      error := None;
    }

    /** getPropertyById. */
    function GetPropertyById(id: string): Option<Property>
      reads this
    {
      FindById(properties, id)
    }

    method FetchProperties()
      modifies this
      ensures properties == [] && selectedProperty == old(selectedProperty)
      ensures !loading && error == None
    {
      loading := true;
      error := None;
      properties := [];
      loading := false;
    }

    method AddProperty(property: PropertyData, freshId: string, now: int) returns (newProperty: Property)
      modifies this
      ensures newProperty == Stamp(property, freshId, now)
      ensures properties == old(properties) + [newProperty]
      ensures selectedProperty == old(selectedProperty) && !loading && error == None
    {
      loading := true;
      error := None;
      newProperty := Stamp(property, freshId, now);
      properties := properties + [newProperty];
      loading := false;
    }

    method UpdateProperty(propertyId: string, updates: PropertyPatch, now: int)
      modifies this
      ensures properties == PropertiesAfterUpdate(old(properties), propertyId, updates, now)
      ensures selectedProperty == old(selectedProperty) && !loading && error == None
    {
      loading := true;
      error := None;
      var index := IndexOf(properties, propertyId);
      if index != -1 {
        properties := properties[index := MergeProperty(properties[index], updates, now)];
      }
      loading := false;
    }

    method DeleteProperty(propertyId: string)
      modifies this
      ensures properties == RemoveById(old(properties), propertyId)
      ensures selectedProperty == old(selectedProperty) && !loading && error == None
    {
      loading := true;
      error := None;
      properties := RemoveById(properties, propertyId);
      loading := false;
    }

    method SetSelectedProperty(property: Option<Property>)
      modifies this
      ensures selectedProperty == property
      ensures properties == old(properties) && loading == old(loading) && error == old(error)
    {
      selectedProperty := property;
    }
  }
}
