/**
 * Model of src/data/properties.ts: the in-memory listing store that stands in
 * for a database, seeded with two records, and `addProperty`, which puts a new
 * record on top with `unshift`.
 */
module PropertyData {

  /** One listing. `price` is a JavaScript number; both seeds are whole numbers. */
  datatype Property = Property(
    id: string,
    title: string,
    price: int,
    location: string,
    identity: string,
    verified: bool,
    description: string)

  /** The two records the module-level array starts with; no id occurs twice among them. */
  function SeedProperties(): (r: seq<Property>)
    ensures |r| == 2
    ensures forall i :: 0 <= i < |r| ==> CountId(r, r[i].id) == 1
  {
    [ Property("R001", "2 BHK Independent House", 978675, "Rajnandgaon", "Owner", true,
               "Well-maintained house in a peaceful residential area."),
      Property("R002", "Commercial Plot", 4599090, "Rajnandgaon", "Broker", false,
               "Prime commercial land suitable for business use.") ]
  }

  /** Number of records in `s` whose id is `id`. */
  function CountId(s: seq<Property>, id: string): nat {
    if s == [] then 0 else (if s[0].id == id then 1 else 0) + CountId(s[1..], id)
  }

  /** The module-level `properties` array; the one instance is the store. */
  class PropertyStore {
    var properties: seq<Property>

    constructor ()
      ensures properties == SeedProperties()
    {
      properties := SeedProperties();
    }

    /** `addProperty`: `unshift` puts the record first; nothing is checked. */
    method AddProperty(p: Property)
      modifies this
      ensures properties == [p] + old(properties)
      ensures |properties| == |old(properties)| + 1
      ensures properties[0] == p && properties[1..] == old(properties)
    {
      properties := [p] + properties;
    }
  }

  /** The store starts with R001 (verified) and then R002 (not verified). */
  lemma SeedShape()
    ensures |SeedProperties()| == 2
    ensures SeedProperties()[0].id == "R001" && SeedProperties()[0].verified
    ensures SeedProperties()[1].id == "R002" && !SeedProperties()[1].verified
  {
  }

  /** Any record whose id occurs in `s` is counted. */
  lemma {:induction false} CountIdPositive(s: seq<Property>, i: nat)
    requires i < |s|
    ensures CountId(s, s[i].id) >= 1
  {
    if i > 0 {
      CountIdPositive(s[1..], i - 1);
      assert s[1..][i - 1] == s[i];
    }
  }

  /** Prepending adds one occurrence of the new id, whether or not it was already there. */
  lemma AddPropertyCounts(s: seq<Property>, p: Property)
    ensures CountId([p] + s, p.id) == CountId(s, p.id) + 1
    ensures forall id :: id != p.id ==> CountId([p] + s, id) == CountId(s, id)
  {
  }

  /** `addProperty` performs no duplicate-id check: adding an id already present leaves it twice. */
  lemma AddPropertyAllowsDuplicates(s: seq<Property>, p: Property, i: nat)
    requires i < |s| && s[i].id == p.id
    ensures CountId([p] + s, p.id) >= 2
  {
    CountIdPositive(s, i);
    AddPropertyCounts(s, p);
  }
}
