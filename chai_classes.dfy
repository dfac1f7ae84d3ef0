/** The tea-shop classes: alternative constructors of `ChaiOrder`, the `ChaiUtils` helpers and
    `TeaLeaf`'s validated `age` property. */
module ChaiClasses {
  import opened Wrappers
  import Strings
  
  /** `ChaiOrder(tea_type, sweetness, size)`: the constructor stores its arguments unchecked. */
  datatype ChaiOrder = ChaiOrder(teaType: string, sweetness: string, size: string)

  /** `ChaiOrder.from_dict(order_data)`: the three keys are looked up in the order tea type,
      sweetness, size, and the first missing one raises `KeyError`. */
  function FromDict(orderData: map<string, string>): (r: Result<ChaiOrder, PyError>)
    ensures r.Ok? <==> "tea_type" in orderData && "sweetness" in orderData && "size" in orderData
    ensures r.Ok? ==> r.value == ChaiOrder(orderData["tea_type"], orderData["sweetness"], orderData["size"])
    ensures "tea_type" !in orderData ==> r == Err(KeyError("tea_type"))
    ensures "tea_type" in orderData && "sweetness" !in orderData ==> r == Err(KeyError("sweetness"))
    ensures "tea_type" in orderData && "sweetness" in orderData && "size" !in orderData ==>
      r == Err(KeyError("size"))
  {
    if "tea_type" !in orderData then Err(KeyError("tea_type"))
    else if "sweetness" !in orderData then Err(KeyError("sweetness"))
    else if "size" !in orderData then Err(KeyError("size"))
    else Ok(ChaiOrder(orderData["tea_type"], orderData["sweetness"], orderData["size"]))
  }

  /** The dictionary of the example gives the order it describes. */
  lemma FromDictExample()
    ensures FromDict(map["tea_type" := "Masala", "sweetness" := "50%", "size" := "Large"])
         == Ok(ChaiOrder("Masala", "50%", "Large"))
  {
  }

  /** Unpacking a piece count other than three into three names fails as Python reports it. */
  function UnpackError(got: nat): (r: PyError)
    requires got != 3
    ensures r.ValueError?
  {
    if got < 3 then ValueError("not enough values to unpack (expected 3, got " + Strings.NatToString(got) + ")")
    else ValueError("too many values to unpack (expected 3)")
  }

  /** `ChaiOrder.from_str(order_string)`: the string is split at every comma and must give
      exactly three pieces, kept untrimmed. */
  function FromStr(orderString: string): (r: Result<ChaiOrder, PyError>)
    ensures r.Ok? <==> Strings.Count(orderString, ',') == 2
    ensures r.Err? ==> r.error == UnpackError(Strings.Count(orderString, ',') + 1)
    ensures r.Ok? ==> ',' !in r.value.teaType && ',' !in r.value.sweetness && ',' !in r.value.size
    ensures r.Ok? ==> Strings.Join([r.value.teaType, r.value.sweetness, r.value.size], ',') == orderString
  {
    var parts := Strings.Split(orderString, ',');
    if |parts| != 3 then Err(UnpackError(|parts|))
    else
      Strings.JoinSplit(orderString, ',');
      assert parts == [parts[0], parts[1], parts[2]];
      Ok(ChaiOrder(parts[0], parts[1], parts[2]))
  }

  /** Conversely, three comma-free pieces joined by commas are read back as they were. */
  lemma FromStrJoined(teaType: string, sweetness: string, size: string)
    requires ',' !in teaType && ',' !in sweetness && ',' !in size
    ensures FromStr(teaType + "," + sweetness + "," + size) == Ok(ChaiOrder(teaType, sweetness, size))
  {
    var s := teaType + "," + sweetness + "," + size;
    assert s == teaType + [','] + (sweetness + [','] + size);
    Strings.SplitAtSep(teaType, sweetness + [','] + size, ',');
    Strings.SplitTwo(sweetness, size, ',');
  }

  /** 'Green, 100%, Medium' keeps the spaces after the commas. */
  lemma FromStrExample()
    ensures FromStr("Green, 100%, Medium") == Ok(ChaiOrder("Green", " 100%", " Medium"))
  {
    assert "Green, 100%, Medium" == "Green" + "," + " 100%" + "," + " Medium";
    FromStrJoined("Green", " 100%", " Medium");
  }

  /** `ChaiUtils.is_valid_size(size)`: exactly the three sizes, case-sensitively. */
  function IsValidSize(size: string): (r: bool)
    ensures r <==> size in ["Small", "Medium", "Large"]
  {
    size == "Small" || size == "Medium" || size == "Large"
  }

  /** Lower-case spellings are not valid sizes. */
  lemma SizeIsCaseSensitive()
    ensures IsValidSize("Medium") && !IsValidSize("medium") && !IsValidSize("LARGE")
  {
    assert "medium"[0] != "Medium"[0];
    assert "LARGE"[1] != "Large"[1];
  }

  /** Each piece stripped, in order. */
  function StripEach(pieces: seq<string>): (r: seq<string>)
    ensures |r| == |pieces|
    ensures forall i :: 0 <= i < |r| ==> r[i] == Strings.Strip(pieces[i])
  {
    if pieces == [] then [] else [Strings.Strip(pieces[0])] + StripEach(pieces[1..])
  }

  /** `ChaiUtils.clean_ingredients(text)`: the comma-separated pieces, each stripped, in order. */
  function CleanIngredients(text: string): (r: seq<string>)
    ensures |r| == Strings.Count(text, ',') + 1
    ensures forall i :: 0 <= i < |r| ==> r[i] == Strings.Strip(Strings.Split(text, ',')[i])
    ensures forall i :: 0 <= i < |r| ==> r[i] == [] || (!Strings.IsSpace(r[i][0]) && !Strings.IsSpace(r[i][|r[i]| - 1]))
    ensures forall i :: 0 <= i < |r| ==> ',' !in r[i]
  {
    var pieces := Strings.Split(text, ',');
    var r := StripEach(pieces);
    assert forall i :: 0 <= i < |r| ==> ',' !in r[i] by {
      forall i | 0 <= i < |r| ensures ',' !in r[i] {
        Strings.StripKeepsAbsent(pieces[i], ',');
      }
    }
    r
  }

  /** Cleaning is idempotent: re-joining the cleaned list and cleaning again changes nothing. */
  lemma CleanTwice(text: string)
    ensures CleanIngredients(Strings.Join(CleanIngredients(text), ',')) == CleanIngredients(text)
  {
    var r := CleanIngredients(text);
    Strings.SplitJoin(r, ',');
    var r2 := CleanIngredients(Strings.Join(r, ','));
    forall i | 0 <= i < |r2| ensures r2[i] == r[i] {
      Strings.StripIdempotent(Strings.Split(text, ',')[i]);
    }
  }

  /** A four-element sequence is the display of its elements. */
  lemma Four<T>(r: seq<T>)
    requires |r| == 4
    ensures r == [r[0], r[1], r[2], r[3]]
  {
  }

  /** Four comma-free pieces joined by commas clean to the four stripped pieces. */
  lemma CleanFour(a: string, b: string, c: string, d: string)
    requires ',' !in a && ',' !in b && ',' !in c && ',' !in d
    ensures CleanIngredients(a + [','] + b + [','] + c + [','] + d)
         == [Strings.Strip(a), Strings.Strip(b), Strings.Strip(c), Strings.Strip(d)]
  {
    var text := a + [','] + b + [','] + c + [','] + d;
    Strings.SplitFour(a, b, c, d, ',');
    var r := CleanIngredients(text);
    Four(r);
  }

  /** The example string, cut at its commas. */
  lemma RawPieces()
    ensures " water , milk  , ginger, honey "
         == (" " + "water" + " ") + [','] + (" " + "milk" + "  ") + [','] + (" " + "ginger") + [','] + (" " + "honey" + " ")
  {
  }

  /** The four padded pieces of the example, stripped. */
  lemma StrippedPieces()
    ensures Strings.Strip(" " + "water" + " ") == "water"
    ensures Strings.Strip(" " + "milk" + "  ") == "milk"
    ensures Strings.Strip(" " + "ginger") == "ginger"
    ensures Strings.Strip(" " + "honey" + " ") == "honey"
  {
    Strings.StripPadded(" ", "water", " ");
    Strings.StripPadded(" ", "milk", "  ");
    assert " " + "ginger" + "" == " " + "ginger";
    Strings.StripPadded(" ", "ginger", "");
    Strings.StripPadded(" ", "honey", " ");
  }

  /** The raw example gives the four ingredients. */
  lemma CleanExample()
    ensures CleanIngredients(" water , milk  , ginger, honey ") == ["water", "milk", "ginger", "honey"]
  {
    RawPieces();
    CleanFour(" " + "water" + " ", " " + "milk" + "  ", " " + "ginger", " " + "honey" + " ");
    StrippedPieces();
  }

  /** `TeaLeaf(age)`: the constructor stores the age without the setter's check. */
  class TeaLeaf {
    var age: int

    constructor (age: int)
      ensures this.age == age
    {
      this.age := age;
    }

    /** The `age` getter. */
    function Age(): (r: int)
      reads this
      ensures r == age
    {
      age
    }

    /** The `age` setter: stores ages 1 to 5, and otherwise raises `ValueError` and keeps the
        old age. */
    method SetAge(age: int) returns (r: Result<(), PyError>)
      modifies this
      ensures r.Ok? <==> 1 <= age <= 5
      ensures r.Ok? ==> this.age == age
      ensures r.Err? ==> this.age == old(this.age) && r.error == ValueError("Tea Leaf age must be between 1 and 5")
    {
      if 1 <= age <= 5 {
        this.age := age;
        r := Ok(());
      } else {
        r := Err(ValueError("Tea Leaf age must be between 1 and 5"));
      }
    }
  }

  /** The getter reads back what the setter stored, and after a refused assignment the age
      held before. */
  method SetThenGet(leaf: TeaLeaf, age: int) returns (stored: Result<(), PyError>, got: int)
    modifies leaf
    ensures 1 <= age <= 5 ==> stored.Ok? && got == age
    ensures !(1 <= age <= 5) ==> stored.Err? && got == old(leaf.age)
  {
    stored := leaf.SetAge(age);
    got := leaf.Age();
  }

  /** A leaf of age 2 reads back 2; setting 10 raises and leaves 2. */
  method TeaLeafExample() returns (first: int, failed: Result<(), PyError>, after: int)
    ensures first == 2 && failed == Err(ValueError("Tea Leaf age must be between 1 and 5")) && after == 2
  {
    var leaf := new TeaLeaf(2);
    first := leaf.Age();
    failed := leaf.SetAge(10);
    after := leaf.Age();
  }
}
