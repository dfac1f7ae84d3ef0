/** Dataclasses that validate their fields and derive others right after construction. A
    construction that raises is an `Err`; one that succeeds gives the finished value. */
module PostInit {
  import opened Wrappers
  import Strings

  datatype Person = Person(name: string, age: int, email: string)

  /** `Person(name, age, email)`: the age must lie in 0..150 and the email must contain "@";
      the checks run in that order. */
  function NewPerson(name: string, age: int, email: string): (r: Result<Person, PyError>)
    ensures r.Ok? <==> 0 <= age <= 150 && '@' in email
    ensures r.Ok? ==> r.value == Person(name, age, email)
    ensures age < 0 ==> r == Err(ValueError("Age cannot be negative!"))
    ensures age > 150 ==> r == Err(ValueError("Age seems unrealistic!"))
    ensures 0 <= age <= 150 && '@' !in email ==> r == Err(ValueError("Invalid email address!"))
  {
    if age < 0 then Err(ValueError("Age cannot be negative!"))
    else if age > 150 then Err(ValueError("Age seems unrealistic!"))
    else if '@' !in email then Err(ValueError("Invalid email address!"))
    else Ok(Person(name, age, email))
  }

  /** Alice is created; Bob, aged -5, is refused. */
  lemma PersonExamples()
    ensures NewPerson("Alice", 30, "alice@example.com") == Ok(Person("Alice", 30, "alice@example.com"))
    ensures NewPerson("Bob", -5, "bob@example.com") == Err(ValueError("Age cannot be negative!"))
  {
    assert "alice@example.com"[5] == '@';
  }

  /** A circle; area and circumference are not modelled. */
  datatype Circle = Circle(radius: real, diameter: real)

  /** `Circle(radius)`: the radius must be positive; the diameter is twice the radius. */
  function NewCircle(radius: real): (r: Result<Circle, PyError>)
    ensures r.Ok? <==> radius > 0.0
    ensures r.Ok? ==> r.value.radius == radius && r.value.diameter == 2.0 * radius
    ensures r.Err? ==> r.error == ValueError("Radius must be positive!")
  {
    if radius <= 0.0 then Err(ValueError("Radius must be positive!"))
    else Ok(Circle(radius, 2.0 * radius))
  }

  /** A priced product; the savings and final price are not modelled. */
  datatype Product = Product(name: string, basePrice: real, discountPercent: real)

  /** `Product(name, base_price, discount_percent)`: the price must not be negative and the
      discount must lie in 0..100; the price is checked first. */
  function NewProduct(name: string, basePrice: real, discountPercent: real := 0.0): (r: Result<Product, PyError>)
    ensures r.Ok? <==> basePrice >= 0.0 && 0.0 <= discountPercent <= 100.0
    ensures r.Ok? ==> r.value == Product(name, basePrice, discountPercent)
    ensures basePrice < 0.0 ==> r == Err(ValueError("Price cannot be negative!"))
    ensures basePrice >= 0.0 && !(0.0 <= discountPercent <= 100.0) ==>
      r == Err(ValueError("Discount must be between 0 and 100!"))
  {
    if basePrice < 0.0 then Err(ValueError("Price cannot be negative!"))
    else if !(0.0 <= discountPercent <= 100.0) then Err(ValueError("Discount must be between 0 and 100!"))
    else Ok(Product(name, basePrice, discountPercent))
  }

  datatype UserAccount = UserAccount(firstName: string, lastName: string, email: string,
                                     username: string, fullName: string)

  /** `UserAccount(first_name, last_name, email)`: the username is the email up to its first "@"
      (all of it when there is none), the full name is first and last name with a space, and
      both names must be non-empty. */
  function NewUserAccount(firstName: string, lastName: string, email: string): (r: Result<UserAccount, PyError>)
    ensures r.Ok? <==> firstName != "" && lastName != ""
    ensures r.Err? ==> r.error == ValueError("First name and last name are required!")
    ensures r.Ok? ==> r.value.firstName == firstName && r.value.lastName == lastName && r.value.email == email
    ensures r.Ok? ==> r.value.fullName == firstName + " " + lastName
    ensures r.Ok? ==> r.value.username <= email && '@' !in r.value.username
    ensures r.Ok? && |r.value.username| < |email| ==> email[|r.value.username|] == '@'
  {
    var username := Strings.Split(email, '@')[0];
    Strings.SplitHead(email, '@');
    var fullName := firstName + " " + lastName;
    if firstName == "" || lastName == "" then Err(ValueError("First name and last name are required!"))
    else Ok(UserAccount(firstName, lastName, email, username, fullName))
  }

  /** The username is exactly the part of the email before its first "@". */
  lemma UsernameBeforeAt(firstName: string, lastName: string, email: string, k: nat)
    requires firstName != "" && lastName != ""
    requires k < |email| && email[k] == '@' && '@' !in email[..k]
    ensures NewUserAccount(firstName, lastName, email).value.username == email[..k]
  {
  }

  /** The two example accounts. */
  lemma AliceAccount()
    ensures NewUserAccount("Alice", "Johnson", "alice.j@example.com")
         == Ok(UserAccount("Alice", "Johnson", "alice.j@example.com", "alice.j", "Alice Johnson"))
  {
    assert "Alice" + " " + "Johnson" == "Alice Johnson";
    var e := "alice.j@example.com";
    assert e[..7] == "alice.j";
    assert '@' !in e[..7];
    UsernameBeforeAt("Alice", "Johnson", e, 7);
  }

  lemma BobAccount()
    ensures NewUserAccount("Bob", "Smith", "bsmith@company.com")
         == Ok(UserAccount("Bob", "Smith", "bsmith@company.com", "bsmith", "Bob Smith"))
  {
    assert "Bob" + " " + "Smith" == "Bob Smith";
    var e := "bsmith@company.com";
    assert e[..6] == "bsmith";
    assert '@' !in e[..6];
    UsernameBeforeAt("Bob", "Smith", e, 6);
  }

  /** The BMI category, by the thresholds 18.5, 25 and 30. */
  function Category(bmi: real): (r: string)
    ensures r == "Underweight" <==> bmi < 18.5
    ensures r == "Normal weight" <==> 18.5 <= bmi < 25.0
    ensures r == "Overweight" <==> 25.0 <= bmi < 30.0
    ensures r == "Obese" <==> 30.0 <= bmi
  {
    if bmi < 18.5 then "Underweight"
    else if bmi < 25.0 then "Normal weight"
    else if bmi < 30.0 then "Overweight"
    else "Obese"
  }

  /** The categories in increasing order of weight. */
  function Rank(category: string): nat {
    if category == "Underweight" then 0
    else if category == "Normal weight" then 1
    else if category == "Overweight" then 2
    else 3
  }

  /** A higher BMI never falls in a lighter category. */
  lemma CategoryMonotone(b1: real, b2: real)
    requires b1 <= b2
    ensures Rank(Category(b1)) <= Rank(Category(b2))
  {
  }

  /** A BMI record; the BMI itself is computed exactly, without rounding. */
  datatype BMI = BMI(weightKg: real, heightM: real, bmi: real, category: string)

  /** `BMI(weight_kg, height_m)`: both must be positive; the category follows from
      weight / height². */
  function NewBMI(weightKg: real, heightM: real): (r: Result<BMI, PyError>)
    ensures r.Ok? <==> weightKg > 0.0 && heightM > 0.0
    ensures r.Err? ==> r.error == ValueError("Weight and height must be positive!")
    ensures r.Ok? ==> r.value.bmi * heightM * heightM == weightKg && r.value.category == Category(r.value.bmi)
  {
    if weightKg <= 0.0 || heightM <= 0.0 then Err(ValueError("Weight and height must be positive!"))
    else
      var bmi := weightKg / (heightM * heightM);
      Ok(BMI(weightKg, heightM, bmi, Category(bmi)))
  }

  /** 70 kg at 1.75 m is a normal weight; 90 kg at 1.80 m is overweight. */
  lemma BMIExamples()
    ensures NewBMI(70.0, 1.75).value.category == "Normal weight"
    ensures NewBMI(90.0, 1.80).value.category == "Overweight"
  {
    var b1 := 70.0 / (1.75 * 1.75);
    assert 18.5 <= b1 < 25.0 by {
      assert b1 * 3.0625 == 70.0;
    }
    var b2 := 90.0 / (1.80 * 1.80);
    assert 25.0 <= b2 < 30.0 by {
      assert b2 * 3.24 == 90.0;
    }
  }
}
