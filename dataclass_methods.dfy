/** A dataclass with ordinary methods that read and update its fields. */
module DataclassMethods {

  /** `User(first_name, last_name, age)`. */
  class User {
    var firstName: string
    var lastName: string
    var age: int

    constructor (firstName: string, lastName: string, age: int)
      ensures this.firstName == firstName && this.lastName == lastName && this.age == age
    {
      this.firstName := firstName;
      this.lastName := lastName;
      this.age := age;
    }

    /** `full_name()`: first and last name separated by one space. */
    function FullName(): (r: string)
      reads this
      ensures r == firstName + " " + lastName
      ensures r[..|firstName|] == firstName && r[|firstName|] == ' ' && r[|firstName| + 1..] == lastName
    {
      firstName + " " + lastName
    }

    /** `celebrate_birthday()`: one year older, same names. */
    method CelebrateBirthday()
      modifies this
      ensures age == old(age) + 1
      ensures firstName == old(firstName) && lastName == old(lastName)
    {
      age := age + 1;
    }
  }

  /** Aisha Khan, 21, turns 22 and keeps her name. */
  method BirthdayExample() returns (name: string, age: int)
    ensures name == "Aisha Khan" && age == 22
  {
    var u := new User("Aisha", "Khan", 21);
    name := u.FullName();
    u.CelebrateBirthday();
    age := u.age;
    assert "Aisha" + " " + "Khan" == "Aisha Khan";
  }
}
