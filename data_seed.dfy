/**
 * From the catalogue seeder, only the mapping of the gender strings of the
 * seed data onto the `Gender` enumeration.
 */
module DataSeed {
  import opened Entities
  import opened Text

  /** `MapGenderValue(gender)`: the lower-cased name of a known value, anything else `Unisex`. */
  function MapGenderValue(gender: string): (r: Gender)
    ensures r == Women <==> ToLower(gender) == "female"
    ensures r == Men <==> ToLower(gender) == "male"
    ensures r == Kids <==> ToLower(gender) == "kids"
    ensures r == Baby <==> ToLower(gender) == "baby"
  {
    var g := ToLower(gender);
    if g == "female" then Women
    else if g == "male" then Men
    else if g == "unisex" then Unisex
    else if g == "kids" then Kids
    else if g == "baby" then Baby
    else Unisex
  }

  /** The five names the seed data uses, in lower case. */
  lemma KnownGenderNames()
    ensures MapGenderValue("female") == Women && MapGenderValue("male") == Men
    ensures MapGenderValue("unisex") == Unisex && MapGenderValue("kids") == Kids && MapGenderValue("baby") == Baby
  {
    assert ToLower("female") == "female";
    assert ToLower("male") == "male";
    assert ToLower("unisex") == "unisex";
    assert ToLower("kids") == "kids";
    assert ToLower("baby") == "baby";
  }

  /** The mapping ignores case: a string maps as its lower-cased form does. */
  lemma MapGenderIgnoresCase(gender: string)
    ensures MapGenderValue(ToLower(gender)) == MapGenderValue(gender)
  {
    ToLowerIdempotent(gender);
  }

  /** Only the names of `Men`, `Women`, `Kids` and `Baby` map to them; every other string is `Unisex`. */
  lemma UnknownGenderIsUnisex(gender: string)
    requires ToLower(gender) !in {"female", "male", "kids", "baby"}
    ensures MapGenderValue(gender) == Unisex
  {
  }
}
