/**
 * The validating `fullName` accessor and the `age` getter of `PersonCl`
 * (script.js:156-193). `PersonES6` (script.js:329-359) declares the same
 * members with the same bodies, so one class models both.
 */
module Persons {
  import opened Wrappers

  /** The year the `age` getter counts from. */
  const AgeReferenceYear := 2022

  /** `name.includes(' ')`: the name has a space somewhere. */
  predicate IsFullName(name: string)
  {
    ' ' in name
  }

  class Person {
    /** `_fullName`: absent until a name with a space is set. */
    var fullName: Option<string>
    var birthYear: int

    /**
     * The constructor assigns `fullName` through the setter, so a name
     * without a space leaves `_fullName` unset.
     */
    constructor (fullName: string, birthYear: int)
      ensures this.fullName == (if IsFullName(fullName) then Some(fullName) else None)
      ensures this.birthYear == birthYear
    {
      this.fullName := None;
      this.birthYear := birthYear;
      new;
      SetFullName(fullName);
    }

    /** The `age` getter: the years from the birth year to 2022. */
    function Age(): int
      reads this
    {
      AgeReferenceYear - birthYear
    }

    /**
     * The `fullName` setter: stores a name that has a space and keeps the
     * old value for any other (the source then only alerts).
     */
    method SetFullName(name: string)
      modifies this`fullName
      ensures IsFullName(name) ==> fullName == Some(name)
      ensures !IsFullName(name) ==> fullName == old(fullName)
      ensures Age() == old(Age())
    {
      if IsFullName(name) {
        fullName := Some(name);
      }
    }
  }

  /** The instances built at script.js:197-211, and the rejected one commented out at line 209. */
  method PersonRun() returns (jessicaAge: int, walterName: Option<string>, walerName: Option<string>)
    ensures jessicaAge == 26
    ensures walterName == Some("Walter White")
    ensures walerName == None
  {
    var jessica := new Person("Jessica Davis", 1996);
    jessicaAge := jessica.Age();
    var walter := new Person("Walter White", 1965);
    walterName := walter.fullName;
    var waler := new Person("Waler", 1965);
    walerName := waler.fullName;
  }
}
