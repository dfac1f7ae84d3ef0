/** The chai shop's `bill`: a menu lookup, a type check on the number of cups, and the lines
    printed on every path. */
module ChaiBill {
  import opened Wrappers
  import Strings

  /** The `cups` argument: an integer, or some other value (such as the string "three"). */
  datatype Cups = IntCups(n: int) | OtherCups(text: string)

  /** The menu: masala costs 20 rupees a cup and ginger 40. */
  function Menu(): (m: map<string, int>)
    ensures m.Keys == {"masala", "ginger"}
    ensures m["masala"] == 20 && m["ginger"] == 40
  {
    map["masala" := 20, "ginger" := 40]
  }

  /** The computation guarded by the `try`: an unknown flavour raises `InvalidChaiError`; a
      known one with non-integer cups raises `TypeError`; otherwise the total is the menu
      price times the cups, with no bound on the cups. */
  function Total(flavour: string, cups: Cups): (r: Result<int, PyError>)
    ensures r.Ok? <==> flavour in Menu() && cups.IntCups?
    ensures flavour !in Menu() ==> r == Err(InvalidChaiError("that chai is not available"))
    ensures flavour in Menu() && cups.OtherCups? ==> r == Err(TypeError("Number of cups must be an integer"))
    ensures r.Ok? ==> r.value == Menu()[flavour] * cups.n
  {
    if flavour !in Menu() then Err(InvalidChaiError("that chai is not available"))
    else if !cups.IntCups? then Err(TypeError("Number of cups must be an integer"))
    else Ok(Menu()[flavour] * cups.n)
  }

  /** `str(e)` for the exceptions `bill` can catch. */
  function ErrorText(e: PyError): string {
    match e
    case InvalidChaiError(msg) => msg
    case TypeError(msg) => msg
    case _ => ""
  }

  const ThankYou := "Thank you for visiting our chai shop"

  /** The lines `bill(flavour, cups)` prints: the bill or the caught error, then, from the
      `finally` clause, the thank-you line on every path. */
  function Bill(flavour: string, cups: Cups): (lines: seq<string>)
    ensures |lines| == 2 && lines[1] == ThankYou
    ensures Total(flavour, cups).Err? ==> lines[0] == "Error: " + ErrorText(Total(flavour, cups).error)
    ensures Total(flavour, cups).Ok? ==>
      lines[0] == "Your bill for " + Strings.IntToString(cups.n) + " cups of " + flavour
                  + " chai: rupees " + Strings.IntToString(Total(flavour, cups).value)
  {
    var first := match Total(flavour, cups)
      case Ok(total) =>
        "Your bill for " + Strings.IntToString(cups.n) + " cups of " + flavour
        + " chai: rupees " + Strings.IntToString(total)
      case Err(e) => "Error: " + ErrorText(e);
    [first, ThankYou]
  }

  /** The flavour is checked before the cups: an unknown flavour is refused whatever the cups. */
  lemma FlavourFirst(flavour: string, cups: Cups)
    requires flavour != "masala" && flavour != "ginger"
    ensures Bill(flavour, cups) == ["Error: " + "that chai is not available", ThankYou]
  {
  }

  lemma RenderNumbers()
    ensures Strings.IntToString(3) == "3" && Strings.IntToString(120) == "120"
  {
    assert Strings.DigitChar(1) == '1' && Strings.DigitChar(2) == '2' && Strings.DigitChar(0) == '0';
    assert Strings.NatToString(12) == "12";
  }

  /** A refused bill reports the caught exception's message: the unavailable flavour when the
      flavour is unknown, and otherwise the cups that are not an integer. */
  lemma RefusedBillLines(flavour: string, cups: Cups)
    requires Total(flavour, cups).Err?
    ensures Bill(flavour, cups)[0] == "Error: " + (if flavour in Menu() then "Number of cups must be an integer"
                                                 else "that chai is not available")
  {
  }

  /** The three calls of the script: mint is unknown, "three" is not an integer, and three
      cups of ginger cost 120 rupees. */
  lemma MintBill()
    ensures Bill("mint", IntCups(2)) == ["Error: " + "that chai is not available", ThankYou]
  {
    FlavourFirst("mint", IntCups(2));
  }

  lemma WordCupsBill()
    ensures Bill("masala", OtherCups("three")) == ["Error: " + "Number of cups must be an integer", ThankYou]
  {
  }

  lemma GingerBill()
    ensures Bill("ginger", IntCups(3))
         == ["Your bill for " + "3" + " cups of " + "ginger" + " chai: rupees " + "120", ThankYou]
  {
    RenderNumbers();
  }
}
