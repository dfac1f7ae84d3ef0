# Chai and advanced-Python classes, modelled in Dafny

This project models the small, self-contained logic of a Python teaching repository about a chai
shop and about advanced Python: dataclasses that validate themselves after construction, generic
containers, callable objects and decorator classes, and a few small functions from the chapters
on functions, generators, decorators, classes and exceptions. Each core source file becomes one
Dafny module, and it keeps the source's form:

- objects whose methods update their fields are classes;
- pure helpers are functions;
- Python exceptions are `Result` / `Option` values (module `Wrappers`);
- callbacks and predicates are Dafny function values;
- a callback that only prints is replaced by a log of the calls it receives;
- the clock (`time.time()`) becomes an explicit integer `now` argument.

The shared modules are:

- `Strings`: split, join, strip, ASCII case mapping and integer rendering, with their laws;
- `Seqs`: filter, map, index, insert and remove on sequences;
- `OrderedDict`: an insertion-ordered dictionary stored as a sequence of key/value pairs. It is
  used wherever the source's dict order is observable: repositories, the evicting cache and
  `get_all`/`find`.

The modules follow the source files:

- `GenericClasses`: 20_advance_python/3_generics/3_generic_classes.py
- `RealWorldGenerics`: 20_advance_python/3_generics/5_real_world_examples.py
- `TypeVarBasics`: 20_advance_python/3_generics/2_typevar_basics.py
- `PracticalCallables`: 20_advance_python/2_callables/5_practical_examples.py
- `AdvancedCallables`: 20_advance_python/2_callables/6_advanced_callables.py
- `DecoratorCallables`: 20_advance_python/2_callables/4_decorators_as_callables.py
- `CallableObjects`: 20_advance_python/2_callables/2_call_method.py and 3_function_objects.py
- `ECommerce`: 20_advance_python/1_dataclasses/10_real_world_example.py
- `PostInit`: 20_advance_python/1_dataclasses/6_post_init.py
- `FieldFunction`: 20_advance_python/1_dataclasses/5_field_function.py
- `DataclassMethods`: 20_advance_python/1_dataclasses/4_methods_in_dataclasses.py
- `ChaiClasses`: 18_oops/9_static_methods.py, 10_staticmethod_vs_classmethod.py and 11_property_decorator.py
- `ChaiBill`: 19_files_and_expetion_handling/7_mini_project.py
- `ChaiFunctions`: 14_functions/15_pure_function.py and 18_built_in.py
- `AuthDecorator`: 17_decorators/3_auth_decorator.py
- `InfiniteGenerator`: 16_generators/2_inifinite_generators.py

## Model

| member | source | states |
|---|---|---|
| AuthDecorator.RequireAdmin | 17_decorators/3_auth_decorator.py:4-12 | `func` runs exactly when the role is "admin"; otherwise only the denial line is printed; `None` is returned on both paths |
| AuthDecorator.InventoryExample | 17_decorators/3_auth_decorator.py:15-21 | the role "user" is denied without running the function, and "admin" runs it |
| CallableObjects.Counter.constructor | 20_advance_python/2_callables/2_call_method.py:10-11 | a new counter's count is `start`, 0 by default |
| CallableObjects.Counter.Call | 20_advance_python/2_callables/2_call_method.py:13-15 | each call raises the count by exactly one and returns the new count |
| CallableObjects.CallTimes | 20_advance_python/2_callables/2_call_method.py:10-15 | after `n` calls the count is `start + n`, and call `i` returned `start + i + 1` |
| CallableObjects.CounterExample | 20_advance_python/2_callables/2_call_method.py:18-21 | three calls on a fresh counter return 1, 2 and 3 |
| CallableObjects.ApplyTwiceIterates | 20_advance_python/2_callables/3_function_objects.py:16-17 | `apply_twice(fn, x)` is `fn` iterated twice from `x`; applying it to its own result iterates four times, and it commutes with `fn` |
| CallableObjects.IterateIncrement | 20_advance_python/2_callables/3_function_objects.py:20-21 | iterating `increment` `n` times adds `n` |
| CallableObjects.ApplyTwice | 20_advance_python/2_callables/3_function_objects.py:16-17 | `fn` applied to the result of `fn`; `ApplyTwiceIterates` ties it to `Iterate` |
| CallableObjects.Increment | 20_advance_python/2_callables/3_function_objects.py:20-21 | one more than `n`; `IterateIncrement` says what repeating it does |
| CallableObjects.ApplyTwiceExample | 20_advance_python/2_callables/3_function_objects.py:27 | `apply_twice(increment, 3)` is 5 |
| CallableObjects.FunctionListExample | 20_advance_python/2_callables/3_function_objects.py:24-25 | `[greet, str.upper]` applied to "chai" gives "Hello, chai!" and "CHAI" |
| ChaiFunctions.CountsPriceItems | 14_functions/18_built_in.py:15-23 | 10 rupees per chai and 15 per samosa sum the prices of the snacks ordered, one by one |
| ChaiFunctions.GenerateBillIsItemsTotal | 14_functions/18_built_in.py:15-23 | `generate_bill` of the counts of chai and samosa in an order is the sum of the prices of its snacks |
| ChaiFunctions.GenerateBill | 14_functions/18_built_in.py:15-23 | 10 rupees per chai and 15 per samosa, both counts 0 by default; `GenerateBillIsItemsTotal` relates it to an order |
| ChaiFunctions.BillExamples | 14_functions/18_built_in.py:15-26 | the flavour defaults to "masala", the empty bill is 0 and `generate_bill(2, 3)` is 65 |
| ChaiFunctions.PureChaiOfSum | 14_functions/15_pure_function.py:8-9 | the price of the cups of several orders together is the sum of their prices |
| ChaiFunctions.PureChai | 14_functions/15_pure_function.py:8-9 | 10 rupees a cup, reading no global state; `PureChaiOfSum` shows it is additive |
| ChaiFunctions.SumConcat | 14_functions/15_pure_function.py:17-19 | cup totals add up over consecutive runs of calls |
| ChaiFunctions.ChaiShop.constructor | 14_functions/15_pure_function.py:12 | the global total starts at 0 |
| ChaiFunctions.ChaiShop.ImpureChai | 14_functions/15_pure_function.py:17-19 | the global total rises by `cups`, and nothing is returned |
| ChaiFunctions.ServeAll | 14_functions/15_pure_function.py:17-19 | a run of calls raises the total by the sum of their arguments |
| ChaiFunctions.ServeFromStart | 14_functions/15_pure_function.py:12-19 | starting from 0, the total equals the sum of all arguments passed, and the pure price of that total is the sum of the pure prices of the orders |
| DataclassMethods.User.constructor | 20_advance_python/1_dataclasses/4_methods_in_dataclasses.py:11-15 | stores the three fields |
| DataclassMethods.User.FullName | 20_advance_python/1_dataclasses/4_methods_in_dataclasses.py:17-18 | the first name, one space, then the last name |
| DataclassMethods.User.CelebrateBirthday | 20_advance_python/1_dataclasses/4_methods_in_dataclasses.py:20-21 | the age rises by exactly one and both names are unchanged |
| DataclassMethods.BirthdayExample | 20_advance_python/1_dataclasses/4_methods_in_dataclasses.py:24-27 | the example gives "Aisha Khan" and then age 22 |
| InfiniteGenerator.Refill | 16_generators/2_inifinite_generators.py:4 | the `k`-th value is "Refill #" followed by the decimal digits of `k` |
| InfiniteGenerator.RefillInjective | 16_generators/2_inifinite_generators.py:4 | two refill labels are equal exactly when their numbers are |
| InfiniteGenerator.InfiniteChai.constructor | 16_generators/2_inifinite_generators.py:1-2 | a new generator starts counting at 1 |
| InfiniteGenerator.InfiniteChai.Next | 16_generators/2_inifinite_generators.py:3-5 | every `next` yields a value (the generator never runs out): the current refill, then the count moves on by one |
| InfiniteGenerator.Draw | 16_generators/2_inifinite_generators.py:1-5 | `n` draws give the next `n` refills in order |
| InfiniteGenerator.TwoGenerators | 16_generators/2_inifinite_generators.py:8-19 | `refill` yields refills 1-5 and then 6; `user2` counts on its own and yields refills 1-6 |
| ChaiClasses.FromDict | 18_oops/10_staticmethod_vs_classmethod.py:42-55 | succeeds exactly when all three keys are present, and then gives the order the constructor would build from them; otherwise the first missing key, in the order tea type, sweetness, size, raises `KeyError` |
| ChaiClasses.FromDictExample | 18_oops/10_staticmethod_vs_classmethod.py:63-64 | the example dictionary gives the Masala / 50% / Large order |
| ChaiClasses.UnpackError | 18_oops/10_staticmethod_vs_classmethod.py:59 | unpacking a piece count other than three raises `ValueError` |
| ChaiClasses.FromStr | 18_oops/10_staticmethod_vs_classmethod.py:57-60 | succeeds exactly when the string has two commas, and otherwise fails with the unpacking error for the piece count; the three pieces are comma-free, untrimmed, and joined by commas they give back the string |
| ChaiClasses.FromStrJoined | 18_oops/10_staticmethod_vs_classmethod.py:57-60 | the converse: three comma-free fields joined by commas are read back unchanged |
| ChaiClasses.FromStrExample | 18_oops/10_staticmethod_vs_classmethod.py:67-68 | 'Green, 100%, Medium' keeps the spaces, giving ' 100%' and ' Medium' |
| ChaiClasses.IsValidSize | 18_oops/10_staticmethod_vs_classmethod.py:71-74 | true exactly for the three listed sizes |
| ChaiClasses.SizeIsCaseSensitive | 18_oops/10_staticmethod_vs_classmethod.py:74 | the size check is case-sensitive: "medium" and "LARGE" are refused |
| ChaiClasses.StripEach | 18_oops/9_static_methods.py:13 | the comprehension: one stripped entry per piece, in order |
| ChaiClasses.CleanIngredients | 18_oops/9_static_methods.py:13 | one entry per comma-separated piece (commas plus one), entry `i` is piece `i` stripped (so empty pieces stay ""), no entry begins or ends with whitespace, and none contains a comma |
| ChaiClasses.CleanTwice | 18_oops/9_static_methods.py:13 | joining the cleaned list with commas and cleaning again gives the same list |
| ChaiClasses.CleanFour | 18_oops/9_static_methods.py:13 | four comma-free pieces joined by commas clean to the four stripped pieces |
| ChaiClasses.RawPieces | 18_oops/9_static_methods.py:16 | the example text is four padded words joined by commas |
| ChaiClasses.StrippedPieces | 18_oops/9_static_methods.py:16-19 | " water ", " milk  ", " ginger" and " honey " strip to "water", "milk", "ginger" and "honey" |
| ChaiClasses.CleanExample | 18_oops/9_static_methods.py:16-19 | the raw example gives ['water', 'milk', 'ginger', 'honey'] |
| ChaiClasses.TeaLeaf.constructor | 18_oops/11_property_decorator.py:2-13 | the constructor stores any age, without the setter's check |
| ChaiClasses.SetThenGet | 18_oops/11_property_decorator.py:16-29 | reading the age after the setter gives the new age when it lies in 1..5; otherwise the setter raises and the age reads as it was |
| ChaiClasses.TeaLeaf.Age | 18_oops/11_property_decorator.py:16-18 | the getter reads the stored age; `SetThenGet` gives what it reads after the setter |
| ChaiClasses.TeaLeaf.SetAge | 18_oops/11_property_decorator.py:24-29 | stores the age exactly when 1 ≤ age ≤ 5; otherwise raises `ValueError` and keeps the old age |
| ChaiClasses.TeaLeafExample | 18_oops/11_property_decorator.py:32-35 | a leaf of age 2 reads 2; assigning 10 raises and the age stays 2 |
| ChaiBill.Menu | 19_files_and_expetion_handling/7_mini_project.py:6 | the menu holds exactly masala at 20 and ginger at 40 |
| ChaiBill.Total | 19_files_and_expetion_handling/7_mini_project.py:6-12 | succeeds exactly for a flavour on the menu with integer cups, giving price times cups without bounding the cups; an unknown flavour raises `InvalidChaiError` whatever the cups, and known flavour with non-integer cups raises `TypeError` |
| ChaiBill.Bill | 19_files_and_expetion_handling/7_mini_project.py:5-17 | always two lines: the bill or "Error: " with the caught message, then the thank-you line from `finally` |
| ChaiBill.FlavourFirst | 19_files_and_expetion_handling/7_mini_project.py:8-9 | the flavour is checked before the cups: any unknown flavour is reported as unavailable |
| ChaiBill.RefusedBillLines | 19_files_and_expetion_handling/7_mini_project.py:14-15 | a refused bill prints "Error: " followed by `str(e)` of the caught exception: the unavailable-flavour message for an unknown flavour, the integer message for non-integer cups |
| ChaiBill.RenderNumbers | 19_files_and_expetion_handling/7_mini_project.py:13 | 3 and 120 are shown as "3" and "120" |
| ChaiBill.MintBill | 19_files_and_expetion_handling/7_mini_project.py:20 | mint is refused as unavailable, then the thank-you line follows |
| ChaiBill.WordCupsBill | 19_files_and_expetion_handling/7_mini_project.py:21 | the cups "three" are refused with the integer error, then the thank-you line follows |
| ChaiBill.GingerBill | 19_files_and_expetion_handling/7_mini_project.py:22 | three cups of ginger cost 120 rupees, then the thank-you line follows |
| PostInit.NewPerson | 20_advance_python/1_dataclasses/6_post_init.py:16-29 | construction succeeds exactly when 0 ≤ age ≤ 150 and the email contains "@"; the checks run in the order negative age, unrealistic age, email, each with its own message |
| PostInit.PersonExamples | 20_advance_python/1_dataclasses/6_post_init.py:38-40 | Alice is created and Bob, aged -5, is refused as negative |
| PostInit.NewCircle | 20_advance_python/1_dataclasses/6_post_init.py:80-85 | a radius ≤ 0 is refused; otherwise the diameter is twice the radius |
| PostInit.NewProduct | 20_advance_python/1_dataclasses/6_post_init.py:115-120 | succeeds exactly when the base price is not negative and the discount lies in [0, 100]; the price is checked first |
| PostInit.NewUserAccount | 20_advance_python/1_dataclasses/6_post_init.py:149-159 | succeeds exactly when both names are non-empty; the full name is first, space, last; the username is a prefix of the email with no "@", followed in the email by "@" unless it is the whole email |
| PostInit.UsernameBeforeAt | 20_advance_python/1_dataclasses/6_post_init.py:152 | the username is exactly the part of the email before its first "@" |
| PostInit.AliceAccount | 20_advance_python/1_dataclasses/6_post_init.py:166 | the first example account gets username "alice.j" and full name "Alice Johnson" |
| PostInit.BobAccount | 20_advance_python/1_dataclasses/6_post_init.py:167 | the second example account gets username "bsmith" and full name "Bob Smith" |
| PostInit.Category | 20_advance_python/1_dataclasses/6_post_init.py:193-201 | each category holds exactly on its interval: below 18.5, below 25, below 30, and the rest |
| PostInit.CategoryMonotone | 20_advance_python/1_dataclasses/6_post_init.py:193-201 | a higher BMI never falls in a lighter category |
| PostInit.NewBMI | 20_advance_python/1_dataclasses/6_post_init.py:185-201 | non-positive weight or height is refused; otherwise the BMI times the height squared is the weight, and the category is that of the BMI |
| PostInit.BMIExamples | 20_advance_python/1_dataclasses/6_post_init.py:213-218 | 70 kg at 1.75 m is a normal weight and 90 kg at 1.80 m is overweight |
| FieldFunction.TodoList.constructor | 20_advance_python/1_dataclasses/5_field_function.py:21-25 | every new list has the given owner and an empty task list of its own |
| FieldFunction.TodoList.Append | 20_advance_python/1_dataclasses/5_field_function.py:35-38 | the task is added at the end of this list's tasks |
| FieldFunction.TodoExample | 20_advance_python/1_dataclasses/5_field_function.py:32-42 | Alice's and Bob's lists are distinct objects, and appending to one does not touch the other |
| FieldFunction.ComparedPart | 20_advance_python/1_dataclasses/5_field_function.py:66-73 | keeps id, name and price, and blanks the two fields declared `compare=False` |
| FieldFunction.SameProduct | 20_advance_python/1_dataclasses/5_field_function.py:66-73 | two products are equal exactly when they agree once stock and `last_updated`, the fields declared `compare=False`, are blanked |
| FieldFunction.SameProductIgnores | 20_advance_python/1_dataclasses/5_field_function.py:66-73 | changing stock or `last_updated` never changes whether two products are equal |
| FieldFunction.SameProductEquivalence | 20_advance_python/1_dataclasses/5_field_function.py:66-73 | product equality is reflexive, symmetric and transitive |
| FieldFunction.LaptopsEqual | 20_advance_python/1_dataclasses/5_field_function.py:80-86 | the two laptops with stock 10 and 5 compare equal |
| FieldFunction.NewBlogPost | 20_advance_python/1_dataclasses/5_field_function.py:118-126 | a new post has no tags, no views and empty notes |
| FieldFunction.SamePost | 20_advance_python/1_dataclasses/5_field_function.py:118-126 | two posts are equal exactly when they agree once views and internal notes, the fields declared `compare=False`, are blanked |
| FieldFunction.SamePostIgnores | 20_advance_python/1_dataclasses/5_field_function.py:118-126 | changing views or internal notes never changes whether two posts are equal |
| FieldFunction.PostsEqual | 20_advance_python/1_dataclasses/5_field_function.py:133-155 | the two posts with 1500 and 3000 views compare equal |
| FieldFunction.DefaultStats | 20_advance_python/1_dataclasses/5_field_function.py:169-173 | exactly strength, intelligence and agility, each at 10 |
| FieldFunction.GameCharacter.constructor | 20_advance_python/1_dataclasses/5_field_function.py:160-173 | stores every argument; level 1, health 100 and mana 50, an empty inventory and equipment and the default stats unless given |
| FieldFunction.GameCharacter.LevelUp | 20_advance_python/1_dataclasses/5_field_function.py:175-180 | level +1, health +20, mana +10, and nothing else changes |
| FieldFunction.GameCharacter.AddToInventory | 20_advance_python/1_dataclasses/5_field_function.py:182-185 | the item is added at the end, earlier items stay in place, and nothing else changes |
| FieldFunction.CharacterExample | 20_advance_python/1_dataclasses/5_field_function.py:192-208 | after the example steps the warrior is level 2 with 120 health and 60 mana, holding two items and a weapon; the mage is level 10 with its defaults |
| ECommerce.NewCustomer | 20_advance_python/1_dataclasses/10_real_world_example.py:57-67 | stores the given fields and derives the full name as first name, space, last name |
| ECommerce.FullNameSplits | 20_advance_python/1_dataclasses/10_real_world_example.py:66-67 | when neither name contains a space, the full name splits back into the two names |
| ECommerce.FormatAddressSplits | 20_advance_python/1_dataclasses/10_real_world_example.py:85-87 | when no field holds a comma, the formatted address splits at its commas into the street, the city, the state with the zip code, and the country |
| ECommerce.Address.FormatAddress | 20_advance_python/1_dataclasses/10_real_world_example.py:85-87 | "street, city, state zip, country"; `FormatAddressSplits` reads the fields back from it |
| ECommerce.LineOf | 20_advance_python/1_dataclasses/10_real_world_example.py:189-190 | the first cart line holding the product id, or none when no line holds it |
| ECommerce.AddedItems | 20_advance_python/1_dataclasses/10_real_world_example.py:178-197 | an out-of-stock product or a quantity above stock leaves the lines unchanged; otherwise the product's first line gains the quantity, or a new line is appended at the end when there is none |
| ECommerce.AvailabilityDecides | 20_advance_python/1_dataclasses/10_real_world_example.py:43-45 | an unavailable product leaves the cart unchanged, and an available one within stock ends up on a line of the cart |
| ECommerce.Product.IsAvailable | 20_advance_python/1_dataclasses/10_real_world_example.py:43-45 | true exactly when the stock is positive; `AvailabilityDecides` gives its effect on the cart |
| ECommerce.Merged | 20_advance_python/1_dataclasses/10_real_world_example.py:188-196 | the merging loop: the first line of the product gains the quantity, or a new last line is added |
| ECommerce.AddKeepsLinesUnique | 20_advance_python/1_dataclasses/10_real_world_example.py:188-196 | if each product is on at most one line before `add_item`, the same holds after it |
| ECommerce.QuantityOfUpdate | 20_advance_python/1_dataclasses/10_real_world_example.py:191 | changing one line's quantity changes only that product's total, by the difference |
| ECommerce.QuantityOfAppend | 20_advance_python/1_dataclasses/10_real_world_example.py:196 | appending a line adds its quantity to that product's total only |
| ECommerce.AddQuantity | 20_advance_python/1_dataclasses/10_real_world_example.py:178-197 | an accepted add raises the product's total quantity by the amount asked for and leaves every other product's total alone; a refused one changes no total |
| ECommerce.RepeatedAddsExceedStock | 20_advance_python/1_dataclasses/10_real_world_example.py:184-191 | the stock check looks only at the new quantity: adding the single unit in stock twice gives a line of two |
| ECommerce.WithoutProduct | 20_advance_python/1_dataclasses/10_real_world_example.py:199-202 | no remaining line holds the removed product, and every line of another product is kept as often as it occurred |
| ECommerce.WithoutProductConcat | 20_advance_python/1_dataclasses/10_real_world_example.py:199-202 | removal works line by line over two runs of lines, so the kept lines stay in their order |
| ECommerce.RemoveAbsentProduct | 20_advance_python/1_dataclasses/10_real_world_example.py:199-202 | removing a product the cart does not hold leaves the lines unchanged |
| ECommerce.RemoveQuantity | 20_advance_python/1_dataclasses/10_real_world_example.py:199-202 | after removal the product's total is 0 and every other product keeps its total |
| ECommerce.Order.constructor | 20_advance_python/1_dataclasses/10_real_world_example.py:107-116 | stores the fields; a new order is PENDING unless another status is given |
| ECommerce.Order.UpdateStatus | 20_advance_python/1_dataclasses/10_real_world_example.py:131-134 | any status may replace any other |
| ECommerce.ShoppingCart.constructor | 20_advance_python/1_dataclasses/10_real_world_example.py:173-176 | a cart for the customer, empty by default |
| ECommerce.ShoppingCart.AddItem | 20_advance_python/1_dataclasses/10_real_world_example.py:178-197 | the new lines are `AddedItems` of the old; the outcome is out of stock exactly for an unavailable product, not enough stock (with the stock) exactly when the quantity exceeds it, an update to the old line quantity plus the amount whenever the product already has a line, and a new line otherwise |
| ECommerce.ShoppingCart.RemoveItem | 20_advance_python/1_dataclasses/10_real_world_example.py:199-202 | the new lines are the old ones without the product, the others kept in order |
| ECommerce.ShoppingCart.Checkout | 20_advance_python/1_dataclasses/10_real_world_example.py:224-240 | an empty cart raises `ValueError` and changes nothing; otherwise a new PENDING order holds the cart's lines before the call, its customer, address, payment and id, and the cart is left empty |
| ECommerce.LineOfFirst | 20_advance_python/1_dataclasses/10_real_world_example.py:189-190 | the first index holding the product is the line the loop finds |
| ECommerce.DemoCart | 20_advance_python/1_dataclasses/10_real_world_example.py:289-291 | the three adds of the demonstration give three new lines, in order |
| ECommerce.DemoText | 20_advance_python/1_dataclasses/10_real_world_example.py:271-303 | the demonstration customer's name is "John Doe", and the address formats as "123 Main Street, Apt 4B, New York, NY 10001, USA" |
| ECommerce.FillDemoCart | 20_advance_python/1_dataclasses/10_real_world_example.py:284-291 | a new cart after the three adds holds the three lines |
| ECommerce.Demo | 20_advance_python/1_dataclasses/10_real_world_example.py:247-323 | after checkout as order 1001 the order holds the three lines and the cart is empty; after three updates the status is DELIVERED |
| TypeVarBasics.IdentityLaws | 20_advance_python/3_generics/2_typevar_basics.py:33-35 | transforming a list with `identity` gives the list, and searching for `identity(x)` finds what searching for `x` finds |
| TypeVarBasics.Identity | 20_advance_python/3_generics/2_typevar_basics.py:33-35 | the argument itself, of the same type; `IdentityLaws` gives its laws with the list functions |
| TypeVarBasics.AreEqual | 20_advance_python/3_generics/2_typevar_basics.py:56-58 | `are_equal(a, b)` gives the verdict of `both_equal` on the pair of the two |
| TypeVarBasics.FindItem | 20_advance_python/3_generics/2_typevar_basics.py:101-106 | `None` exactly when the target is absent; otherwise an index holding the target with no earlier occurrence |
| TypeVarBasics.FindItemExamples | 20_advance_python/3_generics/2_typevar_basics.py:109-114 | the examples give 2, 1 and `None` |
| TypeVarBasics.Pair.BothEqual | 20_advance_python/3_generics/2_typevar_basics.py:139-141 | true exactly for the pairs that swapping leaves unchanged |
| TypeVarBasics.SwapTwice | 20_advance_python/3_generics/2_typevar_basics.py:78-80 | swapping twice gives the pair back, and swapping a pair from `make_pair(a, b)` gives `make_pair(b, a)` |
| TypeVarBasics.MakePair | 20_advance_python/3_generics/2_typevar_basics.py:78-80 | a pair of the two values, first and second kept; `SwapTwice` gives its symmetry under swap |
| TypeVarBasics.Pair.Swap | 20_advance_python/3_generics/2_typevar_basics.py:135-137 | the two values exchanged; `SwapTwice` shows it undoes itself |
| TypeVarBasics.FilterItems | 20_advance_python/3_generics/2_typevar_basics.py:164-166 | every result satisfies the predicate, nothing is added, and every element that satisfies it is kept as often as it occurs |
| TypeVarBasics.FilterItemsOrder | 20_advance_python/3_generics/2_typevar_basics.py:164-166 | filtering distributes over concatenation, so the kept elements stay in their order |
| TypeVarBasics.TransformItems | 20_advance_python/3_generics/2_typevar_basics.py:169-171 | the same length, with element `i` equal to the transformer applied to item `i` |
| TypeVarBasics.EvensExample | 20_advance_python/3_generics/2_typevar_basics.py:174-177 | the evens of 1..10 are [2, 4, 6, 8, 10] |
| TypeVarBasics.SquaresExample | 20_advance_python/3_generics/2_typevar_basics.py:180-181 | the squares of 1..10 |
| TypeVarBasics.SquaresByIndex | 20_advance_python/3_generics/2_typevar_basics.py:180-181 | ten elements that are the squares of 1..10 by position form the list of squares |
| TypeVarBasics.UpperExample | 20_advance_python/3_generics/2_typevar_basics.py:184-185 | the three words upper-cased |
| TypeVarBasics.Cache.constructor | 20_advance_python/3_generics/2_typevar_basics.py:199-200 | a new cache is empty |
| TypeVarBasics.Cache.Set | 20_advance_python/3_generics/2_typevar_basics.py:202-204 | the key is bound to the value and every other key is kept |
| TypeVarBasics.Cache.Get | 20_advance_python/3_generics/2_typevar_basics.py:206-208 | `None` exactly for a key never set; otherwise the last value set for it |
| TypeVarBasics.CacheExample | 20_advance_python/3_generics/2_typevar_basics.py:211-217 | the integer cache returns 12345 and 42, and `None` for a key never set |
| TypeVarBasics.DoubleList | 20_advance_python/3_generics/2_typevar_basics.py:261-263 | twice the length, with both halves equal to the input |
| TypeVarBasics.GetMiddleItem | 20_advance_python/3_generics/2_typevar_basics.py:266-271 | `None` exactly for the empty list; otherwise the element at `len // 2`, which has as many elements after it as before, or one fewer |
| TypeVarBasics.MiddleOfDoubled | 20_advance_python/3_generics/2_typevar_basics.py:261-271 | the middle item of a doubled non-empty list is its first item |
| TypeVarBasics.DoubleAndMiddleExamples | 20_advance_python/3_generics/2_typevar_basics.py:274-289 | the doubled lists and middle items of the two examples |
| GenericClasses.Popped | 20_advance_python/3_generics/3_generic_classes.py:30-32 | on an empty list nothing is taken and nothing changes; otherwise the item taken, put back at the end of what is left, gives the old list |
| GenericClasses.PushThenPop | 20_advance_python/3_generics/3_generic_classes.py:26-32 | pushing `x` then popping returns `x` and restores the previous items |
| GenericClasses.Stack.constructor | 20_advance_python/3_generics/3_generic_classes.py:23-24 | a new stack is empty |
| GenericClasses.Stack.Push | 20_advance_python/3_generics/3_generic_classes.py:26-28 | the item goes on top |
| GenericClasses.Stack.Pop | 20_advance_python/3_generics/3_generic_classes.py:30-32 | the result and the new items are those of `Popped`: `None` and no change on an empty stack |
| GenericClasses.Stack.Peek | 20_advance_python/3_generics/3_generic_classes.py:34-36 | what the next pop would return, reading the stack only |
| GenericClasses.Stack.IsEmpty | 20_advance_python/3_generics/3_generic_classes.py:38-40 | true exactly when a pop would return `None` |
| GenericClasses.Stack.Size | 20_advance_python/3_generics/3_generic_classes.py:42-44 | the number of items, one more than after a pop of a non-empty stack |
| GenericClasses.Dequeued | 20_advance_python/3_generics/3_generic_classes.py:86-88 | on an empty list nothing is taken; otherwise the item taken, followed by what is left, gives the old list |
| GenericClasses.EnqueueKeepsFront | 20_advance_python/3_generics/3_generic_classes.py:82-88 | enqueueing behind a non-empty queue leaves the next dequeued item unchanged |
| GenericClasses.DrainIsFifo | 20_advance_python/3_generics/3_generic_classes.py:82-88 | dequeuing until empty gives the items back in their enqueue order |
| GenericClasses.Queue.constructor | 20_advance_python/3_generics/3_generic_classes.py:79-80 | a new queue is empty |
| GenericClasses.Queue.Enqueue | 20_advance_python/3_generics/3_generic_classes.py:82-84 | the item joins at the back |
| GenericClasses.Queue.Dequeue | 20_advance_python/3_generics/3_generic_classes.py:86-88 | the result and the new items are those of `Dequeued`: `None` and no change on an empty queue |
| GenericClasses.Queue.Front | 20_advance_python/3_generics/3_generic_classes.py:90-92 | what the next dequeue would return |
| GenericClasses.Queue.IsEmpty | 20_advance_python/3_generics/3_generic_classes.py:94-96 | true exactly when a dequeue would return `None` |
| GenericClasses.ProcessAll | 20_advance_python/3_generics/3_generic_classes.py:99-108 | the task loop takes out exactly the enqueued items in order and leaves the queue empty |
| GenericClasses.Box.constructor | 20_advance_python/3_generics/3_generic_classes.py:120-121 | the box holds its content |
| GenericClasses.Box.Set | 20_advance_python/3_generics/3_generic_classes.py:127-129 | the content is replaced |
| GenericClasses.Box.Transform | 20_advance_python/3_generics/3_generic_classes.py:131-133 | a new box holds `func` of the content, and this box is not modified |
| GenericClasses.BoxReadBack | 20_advance_python/3_generics/3_generic_classes.py:123-133 | `get()` after `set(x)` returns `x`; a transformed box reads `func` of that content while the original still reads `x` |
| GenericClasses.BoxExamples | 20_advance_python/3_generics/3_generic_classes.py:136-146 | the integer box reads 42 and its doubled box 84; the string box reads "hello" and its upper-cased box "HELLO" |
| GenericClasses.Pair.Swap | 20_advance_python/3_generics/3_generic_classes.py:170-172 | a new pair with key and value exchanged |
| GenericClasses.SwapSwap | 20_advance_python/3_generics/3_generic_classes.py:170-172 | swapping twice gives back the pair |
| GenericClasses.AddedIssued | 20_advance_python/3_generics/3_generic_classes.py:202-207 | adding an entry under the counter's id keeps every stored id among the issued ones, and the issued ids are 1 up to the new counter |
| GenericClasses.Repository.constructor | 20_advance_python/3_generics/3_generic_classes.py:198-200 | no items, and the counter starts at 1 |
| GenericClasses.Repository.Add | 20_advance_python/3_generics/3_generic_classes.py:202-207 | returns the counter's id, never issued before, stores the item last under it and advances the counter, so ids run 1, 2, 3, … and are never reused |
| GenericClasses.Repository.Get | 20_advance_python/3_generics/3_generic_classes.py:209-211 | `None` exactly for an id not stored; otherwise the item stored under it |
| GenericClasses.Repository.GetAll | 20_advance_python/3_generics/3_generic_classes.py:213-215 | all items, in insertion order |
| GenericClasses.Repository.Delete | 20_advance_python/3_generics/3_generic_classes.py:217-222 | returns true exactly when the id is stored, removes only that entry, lowers the count by one in that case, and leaves the counter alone |
| GenericClasses.Repository.Count | 20_advance_python/3_generics/3_generic_classes.py:224-226 | the number of stored ids |
| GenericClasses.RepositoryExample | 20_advance_python/3_generics/3_generic_classes.py:239-243 | the three users get ids 1, 2 and 3, and the count is 3 |
| GenericClasses.Success | 20_advance_python/3_generics/3_generic_classes.py:277-280 | a success holding the value |
| GenericClasses.Failure | 20_advance_python/3_generics/3_generic_classes.py:282-285 | not a success; it holds the error and no value |
| GenericClasses.Divide | 20_advance_python/3_generics/3_generic_classes.py:288-292 | fails with "Division by zero" exactly when `b` is 0; otherwise succeeds with a value that times `b` gives `a` |
| GenericClasses.CacheSet | 20_advance_python/3_generics/3_generic_classes.py:324-330 | when the cache is full its first-inserted key is deleted before the key is stored; afterwards the key holds the value; a full cache with no entries, possible only when `max_size` ≤ 0, raises `StopIteration` |
| GenericClasses.KeysTail | 20_advance_python/3_generics/3_generic_classes.py:328-329 | dropping the first entry drops the first key |
| GenericClasses.CacheSetBounded | 20_advance_python/3_generics/3_generic_classes.py:324-330 | a set keeps the entries within the capacity and the keys distinct |
| GenericClasses.CacheSetEvictsOldest | 20_advance_python/3_generics/3_generic_classes.py:326-330 | with `max_size` ≥ 1 a set on a full cache succeeds, and the oldest key goes first even when the key set is already present |
| GenericClasses.CacheSetOthers | 20_advance_python/3_generics/3_generic_classes.py:324-330 | every key other than the one set and the evicted one keeps its value |
| GenericClasses.Cache.constructor | 20_advance_python/3_generics/3_generic_classes.py:320-322 | an empty cache with the given `max_size`, 100 by default |
| GenericClasses.Cache.Set | 20_advance_python/3_generics/3_generic_classes.py:324-330 | the new entries are those of `CacheSet`; the size bound is kept; afterwards `get` returns the value and `has` is true |
| GenericClasses.Cache.Get | 20_advance_python/3_generics/3_generic_classes.py:332-334 | `None` exactly for an absent key; otherwise the value stored under it |
| GenericClasses.Cache.Has | 20_advance_python/3_generics/3_generic_classes.py:336-338 | true exactly when `get` finds a value |
| GenericClasses.Cache.Clear | 20_advance_python/3_generics/3_generic_classes.py:340-342 | afterwards no key is present |
| GenericClasses.Node.constructor | 20_advance_python/3_generics/3_generic_classes.py:367-369 | a node holding the value, with no successor |
| GenericClasses.LinkedList.constructor | 20_advance_python/3_generics/3_generic_classes.py:375-376 | an empty list |
| GenericClasses.LinkedList.Append | 20_advance_python/3_generics/3_generic_classes.py:378-388 | walks to the last node and links a new one, so the contents become the old contents followed by the value |
| GenericClasses.LinkedList.ToList | 20_advance_python/3_generics/3_generic_classes.py:390-397 | the node values from head to tail |
| RealWorldGenerics.ApiResponse.GetData | 20_advance_python/3_generics/5_real_world_examples.py:42-46 | `None` unless the status is SUCCESS, and then the payload |
| RealWorldGenerics.FetchUser | 20_advance_python/3_generics/5_real_world_examples.py:64-69 | successful exactly for a positive id, with Alice under that id; otherwise an ERROR response "User not found" with no data |
| RealWorldGenerics.FetchProducts | 20_advance_python/3_generics/5_real_world_examples.py:72-79 | always successful, with three products numbered 1 to 3 |
| RealWorldGenerics.CrudRepository.constructor | 20_advance_python/3_generics/5_real_world_examples.py:114-116 | empty storage, and the counter starts at 1 |
| RealWorldGenerics.CrudRepository.Create | 20_advance_python/3_generics/5_real_world_examples.py:118-124 | an item without an id gets the counter's id and the counter advances; an item with an id keeps it and the counter stays; either way the item is stored under its id, replacing any entry there |
| RealWorldGenerics.CrudRepository.GetById | 20_advance_python/3_generics/5_real_world_examples.py:126-128 | `None` exactly for an id not stored; otherwise the item stored under it |
| RealWorldGenerics.CrudRepository.GetAll | 20_advance_python/3_generics/5_real_world_examples.py:130-132 | the stored items in insertion order |
| RealWorldGenerics.CrudRepository.Update | 20_advance_python/3_generics/5_real_world_examples.py:134-139 | true exactly when the item's id is stored; then only that entry is replaced, in place; otherwise nothing changes |
| RealWorldGenerics.CrudRepository.Delete | 20_advance_python/3_generics/5_real_world_examples.py:141-146 | true exactly when the id is stored; only that entry goes, and the count falls by one in that case |
| RealWorldGenerics.CrudRepository.Count | 20_advance_python/3_generics/5_real_world_examples.py:148-150 | the number of stored ids |
| RealWorldGenerics.CrudRepository.Find | 20_advance_python/3_generics/5_real_world_examples.py:152-154 | every result satisfies the predicate; the results are read off the stored items at increasing positions, covering every stored item that satisfies it, so they come in insertion order; counts are kept, and the result is `Seqs.Filter` of all items |
| RealWorldGenerics.TaskExample | 20_advance_python/3_generics/5_real_world_examples.py:166-179 | the three tasks get ids 1, 2 and 3, and the first two are the high-priority incomplete ones |
| RealWorldGenerics.ListThree | 20_advance_python/3_generics/5_real_world_examples.py:174 | storage under keys 1, 2 and 3 lists its three values in order |
| RealWorldGenerics.HighTasks | 20_advance_python/3_generics/5_real_world_examples.py:179 | of the three example tasks, exactly the first two pass the query |
| RealWorldGenerics.ThreeNewKeys | 20_advance_python/3_generics/5_real_world_examples.py:169-171 | storing under the new keys 1, 2 and 3 keeps the entries in that order |
| RealWorldGenerics.FilterThree | 20_advance_python/3_generics/5_real_world_examples.py:154 | a filter over three items keeps those that pass, in order |
| RealWorldGenerics.Observable.constructor | 20_advance_python/3_generics/5_real_world_examples.py:195-197 | the initial value, with no listeners |
| RealWorldGenerics.Observable.Set | 20_advance_python/3_generics/5_real_world_examples.py:203-208 | the new value is always stored; the listeners are notified, once each in subscription order with the new value, exactly when it differs from the old one |
| RealWorldGenerics.Observable.Subscribe | 20_advance_python/3_generics/5_real_world_examples.py:210-212 | the listener joins at the end, and nothing else changes |
| RealWorldGenerics.Observable.Notify | 20_advance_python/3_generics/5_real_world_examples.py:214-217 | every listener is called once, in order, with the current value |
| RealWorldGenerics.Classify | 20_advance_python/3_generics/5_real_world_examples.py:224-230 | high exactly above 30, low exactly when not high and below 10 |
| RealWorldGenerics.TemperatureExample | 20_advance_python/3_generics/5_real_world_examples.py:221-238 | the three changes each reach the listener, reported as normal, high and low |
| RealWorldGenerics.Builder.constructor | 20_advance_python/3_generics/5_real_world_examples.py:251-253 | the factory, with no actions |
| RealWorldGenerics.Builder.WithAction | 20_advance_python/3_generics/5_real_world_examples.py:255-258 | adds the action at the end and returns the builder itself |
| RealWorldGenerics.Builder.Build | 20_advance_python/3_generics/5_real_world_examples.py:260-265 | a fresh object from the factory with every action applied, first added first |
| RealWorldGenerics.EmailActions | 20_advance_python/3_generics/5_real_world_examples.py:282-285 | the four actions in order fill in every field of a blank email |
| RealWorldGenerics.EmailExample | 20_advance_python/3_generics/5_real_world_examples.py:281-286 | the built email has the recipient, subject, body and the one attachment |
| RealWorldGenerics.StateMachine.constructor | 20_advance_python/3_generics/5_real_world_examples.py:305-308 | the initial state, no transitions and no callback |
| RealWorldGenerics.StateMachine.AddTransition | 20_advance_python/3_generics/5_real_world_examples.py:310-312 | registers the target for (state, event), overwriting any earlier one |
| RealWorldGenerics.StateMachine.Trigger | 20_advance_python/3_generics/5_real_world_examples.py:314-323 | returns true exactly when (current state, event) is registered; then moves to its target and calls the callback with old and new state; otherwise the state stays and no callback is made |
| RealWorldGenerics.StateMachine.OnTransition | 20_advance_python/3_generics/5_real_world_examples.py:329-331 | sets the callback, and nothing else changes |
| RealWorldGenerics.OrderLifecycle | 20_advance_python/3_generics/5_real_world_examples.py:346-366 | process, ship and deliver take a pending order to DELIVERED |
| RealWorldGenerics.CancelOnlyEarly | 20_advance_python/3_generics/5_real_world_examples.py:346-350 | "cancel" is accepted exactly from PENDING and PROCESSING |
| RealWorldGenerics.OrderExample | 20_advance_python/3_generics/5_real_world_examples.py:343-367 | the script ends in DELIVERED, with the callback called for the three transitions in order |
| RealWorldGenerics.Validator.Validate | 20_advance_python/3_generics/5_real_world_examples.py:385-387 | no message exactly when the check passes, otherwise the validator's message |
| RealWorldGenerics.MakeValidationResult | 20_advance_python/3_generics/5_real_world_examples.py:393-398 | a missing error list becomes empty; the result is valid exactly when there are no errors |
| RealWorldGenerics.ErrorsEmpty | 20_advance_python/3_generics/5_real_world_examples.py:412-419 | a value is valid exactly when every validator passes it or has an empty (falsy) message |
| RealWorldGenerics.ErrorsFromFailures | 20_advance_python/3_generics/5_real_world_examples.py:412-419 | every reported message is the non-empty message of a failing validator, and there are no more messages than validators |
| RealWorldGenerics.ValidatorChain.constructor | 20_advance_python/3_generics/5_real_world_examples.py:404-405 | no validators |
| RealWorldGenerics.ValidatorChain.Add | 20_advance_python/3_generics/5_real_world_examples.py:407-410 | adds the validator at the end and returns the chain itself |
| RealWorldGenerics.ValidatorChain.Validate | 20_advance_python/3_generics/5_real_world_examples.py:412-419 | the messages of the failing validators, in the order they were added |
| RealWorldGenerics.ErrorsFour | 20_advance_python/3_generics/5_real_world_examples.py:415-418 | a chain of four reports each one's message in turn |
| RealWorldGenerics.EmailErrors | 20_advance_python/3_generics/5_real_world_examples.py:423-433 | the email chain reports, in order, the message of each check the address fails |
| RealWorldGenerics.HasDomainOf | 20_advance_python/3_generics/5_real_world_examples.py:429-430 | with exactly one "@", the domain check looks at the text after it |
| RealWorldGenerics.EmailPasses | 20_advance_python/3_generics/5_real_world_examples.py:423-433 | an address with one "@", a dot after it and at least five characters passes |
| RealWorldGenerics.EmailWithoutAt | 20_advance_python/3_generics/5_real_world_examples.py:423-433 | an address of five or more characters without "@" or "." fails the "@" and domain checks |
| RealWorldGenerics.EmailShortNoDomain | 20_advance_python/3_generics/5_real_world_examples.py:423-433 | a short address with one "@" and no dot after it fails the domain and length checks |
| RealWorldGenerics.EmailValid | 20_advance_python/3_generics/5_real_world_examples.py:436-442 | "alice@example.com" is valid |
| RealWorldGenerics.EmailInvalid | 20_advance_python/3_generics/5_real_world_examples.py:436-446 | "invalid" yields the "@" and domain messages |
| RealWorldGenerics.EmailShort | 20_advance_python/3_generics/5_real_world_examples.py:436-446 | "@" and "a@b" each yield the domain and too-short messages |
| RealWorldGenerics.SplitOnce | 20_advance_python/3_generics/5_real_world_examples.py:429-430 | splitting at the single "@" gives the two sides |
| PracticalCallables.EventEmitter.constructor | 20_advance_python/2_callables/5_practical_examples.py:16-17 | no listeners registered and nothing called yet |
| PracticalCallables.EventEmitter.On | 20_advance_python/2_callables/5_practical_examples.py:19-23 | the callback goes at the end of its event's list, which is created empty on the first registration; no other event's list changes and nothing is called |
| PracticalCallables.EventEmitter.Emit | 20_advance_python/2_callables/5_practical_examples.py:25-29 | every callback registered for the event is called once with the arguments, in registration order; an unknown event calls nothing; the listeners do not change |
| PracticalCallables.OnThenEmit | 20_advance_python/2_callables/5_practical_examples.py:19-29 | after registering a callback, emitting its event calls the earlier callbacks and then it, and emitting any other event calls what it called before |
| PracticalCallables.LoginExample | 20_advance_python/2_callables/5_practical_examples.py:36-60 | the three login handlers are each called once with "Alice", in registration order |
| PracticalCallables.ProcessPayment | 20_advance_python/2_callables/5_practical_examples.py:72-116 | the processor returns the strategy's receipt: the amount unchanged; status "pending" exactly for crypto and "success" otherwise; a card shown as "****" and its last four characters; a PayPal email in full; a wallet as its first ten characters and "..." |
| PracticalCallables.PaymentExamples | 20_advance_python/2_callables/5_practical_examples.py:123-138 | the example card shows "****3456", the PayPal payment succeeds and the wallet shows "0x742d35Cc..." |
| PracticalCallables.PyLess | 20_advance_python/2_callables/5_practical_examples.py:165 | Python's `<`: ints compare by value, and a pair of values that cannot be ordered raises TypeError |
| PracticalCallables.PyGreater | 20_advance_python/2_callables/5_practical_examples.py:156 | Python's `>`: the mirror of `<` on a pair that can be ordered; otherwise TypeError |
| PracticalCallables.OrderingErrorTexts | 20_advance_python/2_callables/5_practical_examples.py:156-165 | `"abc" > 5` names `>` with 'str' before 'int', while `5 < "abc"` names `<` with 'int' before 'str' |
| PracticalCallables.MakeContains | 20_advance_python/2_callables/5_practical_examples.py:177-180 | the filter keeps the field and the lower-cased needle |
| PracticalCallables.Apply | 20_advance_python/2_callables/5_practical_examples.py:150-184 | GreaterThan is `>` and LessThan is `<` of the field, a missing field read as 0, with each operator's own TypeError exactly when the two values cannot be ordered; Equals reads a missing field as None; only the orderings can raise |
| PracticalCallables.GreaterThanTypeError | 20_advance_python/2_callables/5_practical_examples.py:149-156 | `GreaterThan("price", 5)` on a record whose price is "abc" raises "'>' not supported between instances of 'str' and 'int'" |
| PracticalCallables.ContainsMeaning | 20_advance_python/2_callables/5_practical_examples.py:177-184 | a Contains filter accepts a record exactly when the lower-cased value occurs in the lower-cased text of the field (an empty string when the field is missing) |
| PracticalCallables.ContainsIgnoresCase | 20_advance_python/2_callables/5_practical_examples.py:180-184 | upper-casing either the filter's value or the record's field text never changes the verdict |
| PracticalCallables.Keep | 20_advance_python/2_callables/5_practical_examples.py:195 | the comprehension raises exactly when the filter raises on some record, and otherwise keeps, in order, the records the filter accepts |
| PracticalCallables.PassesAllSplit | 20_advance_python/2_callables/5_practical_examples.py:194-195 | a record passes a list of filters exactly when it passes the first and then the rest |
| PracticalCallables.KeepTotal | 20_advance_python/2_callables/5_practical_examples.py:195 | a filter that raises on no record keeps exactly the records it accepts |
| PracticalCallables.QueryKeepsPassing | 20_advance_python/2_callables/5_practical_examples.py:191-196 | when no filter raises, narrowing filter by filter keeps exactly the records that pass every filter, in their original order |
| PracticalCallables.Database.constructor | 20_advance_python/2_callables/5_practical_examples.py:188-189 | the database holds the given records |
| PracticalCallables.Database.Query | 20_advance_python/2_callables/5_practical_examples.py:191-196 | the loop applies the filters one after another, in the order given, and its result is the filters' composition over the records |
| PracticalCallables.ElectronicsVerdicts | 20_advance_python/2_callables/5_practical_examples.py:204-219 | neither example filter raises on any product, and only the mouse and the keyboard pass both |
| PracticalCallables.ElectronicsUnder100 | 20_advance_python/2_callables/5_practical_examples.py:214-221 | the example query returns the mouse and the keyboard, in that order |
| PracticalCallables.FilterPicks | 20_advance_python/2_callables/5_practical_examples.py:216-219 | a predicate true on exactly the second and fifth of five records keeps those two |
| PracticalCallables.FilterFive | 20_advance_python/2_callables/5_practical_examples.py:195 | filtering five records is the concatenation of the five single-element verdicts |
| PracticalCallables.Ticked | 20_advance_python/2_callables/5_practical_examples.py:264-265 | the pipeline after the middlewares in a range have seen the request: only those advance, and only rate limiters change |
| PracticalCallables.FirstStop | 20_advance_python/2_callables/5_practical_examples.py:249-271 | the first middleware from a position on that stops the request: every one before it hands the request on, and it does not |
| PracticalCallables.FirstStopFrame | 20_advance_python/2_callables/5_practical_examples.py:284-290 | where the request stops depends only on the middlewares from that position on |
| PracticalCallables.RunOutcome | 20_advance_python/2_callables/5_practical_examples.py:240-292 | the pipeline answers 200 "Success" when every middleware hands the request on, and otherwise with the rejection (401 or 429) of the first that does not; middlewares after it never see the request; every rate limiter up to and including it counts the request |
| PracticalCallables.Server.constructor | 20_advance_python/2_callables/5_practical_examples.py:275-276 | an empty pipeline |
| PracticalCallables.Server.Use | 20_advance_python/2_callables/5_practical_examples.py:278-280 | the middleware goes at the end of the pipeline |
| PracticalCallables.Server.HandleRequest | 20_advance_python/2_callables/5_practical_examples.py:282-292 | the response of running the pipeline from its first middleware, and the pipeline with the rate limiters that saw the request advanced |
| PracticalCallables.ExampleStep | 20_advance_python/2_callables/5_practical_examples.py:299-302 | through logging, rate limiting and auth, every request is counted; it is refused with 429 once the count passes 5, and otherwise auth lets it through exactly when it carries an Authorization header |
| PracticalCallables.RateLimitFromSixth | 20_advance_python/2_callables/5_practical_examples.py:259-271 | over a series of requests the limiter counts every one, rejected ones included, and from the sixth on every answer is 429 whatever the headers |
| PracticalCallables.ServerExample | 20_advance_python/2_callables/5_practical_examples.py:299-321 | the example's authorized request gets 200 "Success" and the one without headers gets 401 "Unauthorized" |
| PracticalCallables.TaskList.constructor | 20_advance_python/2_callables/5_practical_examples.py:386 | an empty task list |
| PracticalCallables.Executed | 20_advance_python/2_callables/5_practical_examples.py:341-359 | an add appends its item; a remove records the index of the item's first occurrence and takes it out, and raises ValueError leaving the list unchanged when the item is absent |
| PracticalCallables.Undone | 20_advance_python/2_callables/5_practical_examples.py:345-363 | undoing an add removes one occurrence of the item (ValueError if there is none); undoing a remove inserts the item back at the recorded index (TypeError if the remove never ran) and keeps the rest |
| PracticalCallables.RemoveUndoRestores | 20_advance_python/2_callables/5_practical_examples.py:356-363 | a remove of an item the list holds, followed by its undo, gives back the list exactly |
| PracticalCallables.AddUndoRestores | 20_advance_python/2_callables/5_practical_examples.py:341-347 | an add followed by its undo succeeds, and gives back the list exactly when the list held no equal item or only equal items from the first one on |
| PracticalCallables.AddUndoReorders | 20_advance_python/2_callables/5_practical_examples.py:345-347 | adding "a" to ["a", "b"] and undoing leaves ["b", "a"], not the original list |
| PracticalCallables.Command.Add | 20_advance_python/2_callables/5_practical_examples.py:337-339 | an add command over the shared list, with no index recorded |
| PracticalCallables.Command.Remove | 20_advance_python/2_callables/5_practical_examples.py:351-354 | a remove command over the shared list, with the index still None |
| PracticalCallables.Command.Execute | 20_advance_python/2_callables/5_practical_examples.py:341-359 | the shared list and the recorded index become what running the command gives |
| PracticalCallables.Command.Undo | 20_advance_python/2_callables/5_practical_examples.py:345-363 | the shared list becomes what undoing the command gives |
| PracticalCallables.RemoveRoundTrip | 20_advance_python/2_callables/5_practical_examples.py:356-363 | on the shared list, a remove command followed by its undo leaves the list as it was |
| PracticalCallables.CommandManager.constructor | 20_advance_python/2_callables/5_practical_examples.py:367-368 | an empty history |
| PracticalCallables.CommandManager.Execute | 20_advance_python/2_callables/5_practical_examples.py:370-373 | runs the command and records it at the end of the history unless it raised |
| PracticalCallables.CommandManager.Undo | 20_advance_python/2_callables/5_practical_examples.py:375-379 | with no history nothing happens; otherwise the latest command leaves the history and is undone, and the lists of other receivers do not change |
| PracticalCallables.UndoFreshAdd | 20_advance_python/2_callables/5_practical_examples.py:345-347 | undoing the add of an item the list did not hold before takes that item off the end |
| PracticalCallables.ThreeAdds | 20_advance_python/2_callables/5_practical_examples.py:386-393 | after three adds the list is ["Task 1", "Task 2", "Task 3"] and the history holds those three adds in order |
| PracticalCallables.UndoFreshLast | 20_advance_python/2_callables/5_practical_examples.py:375-379 | undoing the latest command, the add of an item new to the list, takes that item off the end and drops the command from the history |
| PracticalCallables.CommandExample | 20_advance_python/2_callables/5_practical_examples.py:386-403 | three adds and then two undos leave ["Task 1"] |
| AdvancedCallables.Partial.Arguments | 20_advance_python/2_callables/6_advanced_callables.py:21-25 | the call receives the stored positional arguments followed by the given ones; a given keyword has its given value, a stored keyword not given again keeps its stored value, no other keyword appears, and no keyword is repeated when none was stored twice |
| AdvancedCallables.Partial.Call | 20_advance_python/2_callables/6_advanced_callables.py:21-25 | with no keyword at call time the stored keywords are passed unchanged; with nothing stored the call passes on exactly what it is given |
| OrderedDict.GetMerge | 20_advance_python/2_callables/6_advanced_callables.py:24 | in `{**stored, **given}` a key of the given dict reads its given value and any other key its stored one |
| OrderedDict.MergeWf | 20_advance_python/2_callables/6_advanced_callables.py:24 | merging into a dict without repeated keys leaves no repeated key |
| OrderedDict.MergeFresh | 20_advance_python/2_callables/6_advanced_callables.py:24 | when the two dicts share no key the merge is the stored entries followed by the given ones, in order |
| AdvancedCallables.BindKeywordsSpec | 20_advance_python/2_callables/6_advanced_callables.py:33-34 | binding keywords to `multiply(a, b, c)` succeeds exactly when each names a parameter not yet filled and none is repeated, and then fills each empty parameter with its keyword value |
| AdvancedCallables.Multiply | 20_advance_python/2_callables/6_advanced_callables.py:33-34 | the call succeeds exactly when there are at most three positionals, the keywords fit and every parameter past the positionals is named; the result is then the product of the three bound values, and every failure is a TypeError |
| AdvancedCallables.MultiplyPositional | 20_advance_python/2_callables/6_advanced_callables.py:33-34 | three positional arguments give their product |
| AdvancedCallables.MultiplyMissingArguments | 20_advance_python/2_callables/6_advanced_callables.py:33-34 | `multiply(2)` raises TypeError "multiply() missing 2 required positional arguments: 'b' and 'c'" |
| AdvancedCallables.MultiplyTooManyArguments | 20_advance_python/2_callables/6_advanced_callables.py:33-34 | `multiply(2, 3, 4, 5)` raises TypeError "multiply() takes 3 positional arguments but 4 were given" |
| AdvancedCallables.PartialExamples | 20_advance_python/2_callables/6_advanced_callables.py:33-41 | `Partial(multiply, 2)(3, 4)` is 24 and `Partial(multiply, 3, 5)(2)` is 30 |
| AdvancedCallables.MultiplyKeywordC | 20_advance_python/2_callables/6_advanced_callables.py:33-34 | `multiply(2, 3, c=4)` is 24 |
| AdvancedCallables.PartialKeywordExample | 20_advance_python/2_callables/6_advanced_callables.py:21-25 | `Partial(multiply, 2)(3, c=4)` is 24 |
| AdvancedCallables.PartialKeywordOverride | 20_advance_python/2_callables/6_advanced_callables.py:21-25 | a keyword given at the call replaces a stored one: `Partial(multiply, 2, c=5)(3, c=4)` is 24 |
| AdvancedCallables.PartialKeywordRepeat | 20_advance_python/2_callables/6_advanced_callables.py:21-25 | `Partial(multiply, 2)(3, a=4)` raises TypeError "multiply() got multiple values for argument 'a'" |
| AdvancedCallables.Lazy.constructor | 20_advance_python/2_callables/6_advanced_callables.py:89-92 | nothing computed yet and the function not yet evaluated |
| AdvancedCallables.Lazy.Call | 20_advance_python/2_callables/6_advanced_callables.py:94-101 | every call returns `func()`; the function is evaluated on the first call only, and later calls leave the stored result and the evaluation count as they were |
| AdvancedCallables.LazyExample | 20_advance_python/2_callables/6_advanced_callables.py:116-123 | two calls return the same value with a single evaluation |
| AdvancedCallables.ComposedIsReversedPipeline | 20_advance_python/2_callables/6_advanced_callables.py:129-140 | composing functions right to left is running them as a pipeline in reversed order |
| AdvancedCallables.Compose.constructor | 20_advance_python/2_callables/6_advanced_callables.py:132-133 | keeps the functions in the order given |
| AdvancedCallables.Compose.Call | 20_advance_python/2_callables/6_advanced_callables.py:135-140 | the loop over `reversed(functions)` computes f(g(h(x))) for functions f, g, h: the last one is applied first |
| AdvancedCallables.ComposeExample | 20_advance_python/2_callables/6_advanced_callables.py:148-167 | `Compose(square, multiply_by_two, add_five)(3)` is 256 |
| AdvancedCallables.Pipeline.constructor | 20_advance_python/2_callables/6_advanced_callables.py:175-176 | keeps the steps in the order given |
| AdvancedCallables.Pipeline.Call | 20_advance_python/2_callables/6_advanced_callables.py:178-182 | the loop applies the steps left to right, the first step first |
| AdvancedCallables.Pipeline.AddStep | 20_advance_python/2_callables/6_advanced_callables.py:184-187 | exactly one step is added, at the end, and the pipeline itself is returned |
| AdvancedCallables.AddedStepRunsLast | 20_advance_python/2_callables/6_advanced_callables.py:178-187 | a step added with `add_step` runs after all the earlier steps, on their result |
| AdvancedCallables.PipelineExample | 20_advance_python/2_callables/6_advanced_callables.py:197-214 | the text pipeline turns "hello world" into "[HELLOWORLD]" |
| AdvancedCallables.TextPipeline | 20_advance_python/2_callables/6_advanced_callables.py:197-209 | the example pipeline brackets the upper-cased text with its spaces removed, in that order |
| AdvancedCallables.ApplyThree | 20_advance_python/2_callables/6_advanced_callables.py:178-182 | a three-step pipeline applies its first step first and its last step last |
| AdvancedCallables.RemoveOneSpace | 20_advance_python/2_callables/6_advanced_callables.py:197-198 | two space-free words joined by one space come back joined, with just that space removed |
| AdvancedCallables.HelloWorldText | 20_advance_python/2_callables/6_advanced_callables.py:209-214 | "hello world" with its space removed, upper-cased and bracketed is "[HELLOWORLD]" |
| AdvancedCallables.Retry.constructor | 20_advance_python/2_callables/6_advanced_callables.py:222-224 | keeps the attempt limit and the delay, 3 and 0 by default |
| AdvancedCallables.Retry.Call | 20_advance_python/2_callables/6_advanced_callables.py:226-242 | at most `max_attempts` attempts, each after a failed one; the result of the first attempt that succeeds; the error of the last attempt when every attempt fails; and no attempt at all, giving None, when `max_attempts` is below 1 |
| AdvancedCallables.RetryExample | 20_advance_python/2_callables/6_advanced_callables.py:249-265 | with three attempts the unreliable function succeeds on its third call, returning "Success!" |
| AdvancedCallables.Unreliable | 20_advance_python/2_callables/6_advanced_callables.py:253-258 | raises ConnectionError "Connection failed" on the first two calls and returns "Success!" from the third on; `RetryExample` runs it under `Retry` |
| AdvancedCallables.ChainableList.constructor | 20_advance_python/2_callables/6_advanced_callables.py:273-274 | holds a copy of the given elements |
| AdvancedCallables.ChainableList.Filter | 20_advance_python/2_callables/6_advanced_callables.py:276-279 | keeps, in order, the elements satisfying the predicate, and returns the same object |
| AdvancedCallables.ChainableList.Map | 20_advance_python/2_callables/6_advanced_callables.py:281-284 | replaces each element by its transform, keeping length and order, and returns the same object |
| AdvancedCallables.ChainableList.Reduce | 20_advance_python/2_callables/6_advanced_callables.py:286-297 | with an initial value, a left fold from it; without one, a left fold of the rest from the first element, and IndexError on an empty list |
| AdvancedCallables.SumDoubled | 20_advance_python/2_callables/6_advanced_callables.py:318-321 | summing the doubled elements is twice the sum of the elements |
| AdvancedCallables.ChainExample | 20_advance_python/2_callables/6_advanced_callables.py:308-321 | the even numbers of 1 to 10 squared are [4, 16, 36, 64, 100], and 1 to 5 doubled sums to 30 |
| AdvancedCallables.EvenSquares | 20_advance_python/2_callables/6_advanced_callables.py:311-314 | filtering 1 to 10 for even numbers and squaring them gives [4, 16, 36, 64, 100] |
| AdvancedCallables.EvensUpToTen | 20_advance_python/2_callables/6_advanced_callables.py:312 | the even numbers of 1 to 10 are 2, 4, 6, 8 and 10 |
| AdvancedCallables.DoubledSum | 20_advance_python/2_callables/6_advanced_callables.py:319-321 | 1 to 5 doubled, summed from 0, is 30 |
| AdvancedCallables.LengthIsRange | 20_advance_python/2_callables/6_advanced_callables.py:332-353 | a length validator accepts a value exactly when the range validator with the same bounds accepts its length |
| AdvancedCallables.ValidatorExamples | 20_advance_python/2_callables/6_advanced_callables.py:375-385 | the age validator 18..100 accepts 25 and refuses 15; the password validator 8..20 refuses "short" and accepts "longenough123" |
| DecoratorCallables.CountCalls.constructor | 20_advance_python/2_callables/4_decorators_as_callables.py:76-79 | wraps the function with no calls counted |
| DecoratorCallables.CountCalls.Call | 20_advance_python/2_callables/4_decorators_as_callables.py:81-84 | every call is counted once and answered by the wrapped function |
| DecoratorCallables.CountCalls.Reset | 20_advance_python/2_callables/4_decorators_as_callables.py:86-88 | the count goes back to zero |
| DecoratorCallables.Greet | 20_advance_python/2_callables/4_decorators_as_callables.py:97-98 | the greeting is "Hello, ", the name, then "!", so the name can be read back from it |
| DecoratorCallables.GreetExample | 20_advance_python/2_callables/4_decorators_as_callables.py:96-107 | three greetings are answered "Hello, Alice!", "Hello, Bob!" and "Hello, Charlie!", the count is then 3, and 0 after the reset |
| DecoratorCallables.Repeat.constructor | 20_advance_python/2_callables/4_decorators_as_callables.py:113-115 | keeps the repetition count |
| DecoratorCallables.Repeat.Wrapper | 20_advance_python/2_callables/4_decorators_as_callables.py:117-128 | the function runs `times` times, none when `times` is not positive, and the list holds its result once per run |
| DecoratorCallables.SayHiExample | 20_advance_python/2_callables/4_decorators_as_callables.py:136-142 | `say_hi` repeated three times returns ["Hi!", "Hi!", "Hi!"] |
| DecoratorCallables.Memoize.constructor | 20_advance_python/2_callables/4_decorators_as_callables.py:189-192 | an empty cache and nothing computed |
| DecoratorCallables.Memoize.Call | 20_advance_python/2_callables/4_decorators_as_callables.py:194-202 | returns the function's result; a hit leaves the cache as it was and runs nothing; a miss runs the function once and stores its result; since the last clear, each cached argument was computed exactly once |
| DecoratorCallables.Memoize.ClearCache | 20_advance_python/2_callables/4_decorators_as_callables.py:204-206 | forgets every stored result, so the next call of each argument computes again |
| DecoratorCallables.ReachedIs | 20_advance_python/2_callables/4_decorators_as_callables.py:214-219 | a memoised `fibonacci(n)` caches the arguments 0 to n, or only n when n is below 2 |
| DecoratorCallables.MemoFibonacci.constructor | 20_advance_python/2_callables/4_decorators_as_callables.py:214-219 | the decorated `fibonacci` starts with an empty cache |
| DecoratorCallables.MemoFibonacci.Call | 20_advance_python/2_callables/4_decorators_as_callables.py:194-219 | returns fib(n); caches what the call reaches; computes exactly the arguments it reaches that were not cached yet, in the order of the recursion |
| DecoratorCallables.MemoFibonacci.Body | 20_advance_python/2_callables/4_decorators_as_callables.py:217-219 | `fibonacci(n - 1) + fibonacci(n - 2)` through the cache is fib(n), the second call seeing what the first stored |
| DecoratorCallables.CallBookkeeping | 20_advance_python/2_callables/4_decorators_as_callables.py:199-201 | a miss that recursed has cached and computed exactly what a call of n reaches |
| DecoratorCallables.StoreKeepsGood | 20_advance_python/2_callables/4_decorators_as_callables.py:200-201 | storing fib(n) once what it depends on is cached keeps every cached value correct |
| DecoratorCallables.ReachedStep | 20_advance_python/2_callables/4_decorators_as_callables.py:217-219 | what `fibonacci(n)` caches is what its two recursive calls cache, plus n |
| DecoratorCallables.ReachedClosed | 20_advance_python/2_callables/4_decorators_as_callables.py:217-219 | every argument a call caches has its own reach cached as well |
| DecoratorCallables.ComputedOnce | 20_advance_python/2_callables/4_decorators_as_callables.py:194-219 | a memoised call computes each argument at most once, only arguments it reaches, and none cached before |
| DecoratorCallables.FreshFibonacci | 20_advance_python/2_callables/4_decorators_as_callables.py:214-222 | on an empty cache `fibonacci(n)` for n of 2 or more computes n, n - 1, down to 0: n + 1 computations, not exponentially many |
| DecoratorCallables.CachedFibonacci | 20_advance_python/2_callables/4_decorators_as_callables.py:222-224 | after `fibonacci(m)`, a call `fibonacci(n)` with n > m computes only n down to m + 1 |
| DecoratorCallables.FibTen | 20_advance_python/2_callables/4_decorators_as_callables.py:222-224 | fib(5) is 5 and fib(10) is 55 |
| DecoratorCallables.FibonacciTrace | 20_advance_python/2_callables/4_decorators_as_callables.py:222-224 | the three example calls compute 5 down to 0, then nothing, then 10 down to 6 |
| DecoratorCallables.FibonacciExample | 20_advance_python/2_callables/4_decorators_as_callables.py:214-224 | the example prints 5, 5 and 55, and the second call of 5 is a pure cache hit |
| DecoratorCallables.RateLimit.constructor | 20_advance_python/2_callables/4_decorators_as_callables.py:230-238 | keeps the limit and the window, with no call timestamps held |
| DecoratorCallables.RateLimit.Wrapper | 20_advance_python/2_callables/4_decorators_as_callables.py:240-258 | timestamps with now - t at least the window are dropped first; with `max_calls` remaining the call raises the limit message and records nothing; otherwise `now` is recorded and the function's result returned |
| DecoratorCallables.PruneTwice | 20_advance_python/2_callables/4_decorators_as_callables.py:246-247 | pruning at one time and again at a later time keeps what pruning at the later time alone keeps |
| DecoratorCallables.AgreeAfterPrune | 20_advance_python/2_callables/4_decorators_as_callables.py:246-247 | a prune keeps the held timestamps in agreement with the calls admitted so far, at every later time |
| DecoratorCallables.AgreeAfterRecord | 20_advance_python/2_callables/4_decorators_as_callables.py:255 | recording the admitted call's timestamp keeps that agreement |
| DecoratorCallables.AdmitKeepsBound | 20_advance_python/2_callables/4_decorators_as_callables.py:249-255 | admitting a call while fewer than `max_calls` admitted calls lie in its window keeps every window within the limit |
| DecoratorCallables.AtMostLater | 20_advance_python/2_callables/4_decorators_as_callables.py:243 | with a clock that does not go back, every recorded timestamp stays at most the current reading |
| DecoratorCallables.InvAfterRefuse | 20_advance_python/2_callables/4_decorators_as_callables.py:249-253 | a refused call keeps the limiter's invariant |
| DecoratorCallables.InvAfterAdmit | 20_advance_python/2_callables/4_decorators_as_callables.py:249-256 | an admitted call keeps the limiter's invariant |
| DecoratorCallables.AdmittedBounded | 20_advance_python/2_callables/4_decorators_as_callables.py:242-256 | from any state meeting the invariant, the admitted calls keep every window within the limit |
| DecoratorCallables.RefusedFirst | 20_advance_python/2_callables/4_decorators_as_callables.py:249-253 | when the first call of a run is refused, what is admitted is what the rest admits from the pruned timestamps |
| DecoratorCallables.AdmittedFirstCall | 20_advance_python/2_callables/4_decorators_as_callables.py:255-256 | when the first call goes through, its timestamp is the first admitted |
| DecoratorCallables.AdmittedFirst | 20_advance_python/2_callables/4_decorators_as_callables.py:242-256 | a run of calls is its first call, refused or admitted, followed by the rest on the timestamps it left |
| DecoratorCallables.RateLimitWindow | 20_advance_python/2_callables/4_decorators_as_callables.py:229-258 | with a clock that never goes back, no window of `time_window` seconds holds more than `max_calls` calls that went through |
| DecoratorCallables.StepAdmits | 20_advance_python/2_callables/4_decorators_as_callables.py:246-256 | with fewer than `max_calls` timestamps held, all inside the window, the call goes through and is recorded |
| DecoratorCallables.StepRefuses | 20_advance_python/2_callables/4_decorators_as_callables.py:246-253 | with `max_calls` timestamps held, all inside the window, the call is refused and nothing is recorded |
| DecoratorCallables.ExampleLimitMessage | 20_advance_python/2_callables/4_decorators_as_callables.py:250-253 | the example limiter's message is "Rate limit exceeded: 3 calls per 2 seconds" |
| DecoratorCallables.CallRecent | 20_advance_python/2_callables/4_decorators_as_callables.py:240-258 | while every held timestamp is inside the window, a call goes through and is recorded exactly when fewer than `max_calls` are held, and otherwise raises the limit message and records nothing |
| DecoratorCallables.ApiExample | 20_advance_python/2_callables/4_decorators_as_callables.py:266-277 | with three calls per two seconds, four calls less than two seconds apart: the first three return "Called /users", "Called /posts" and "Called /comments", and the fourth raises "Rate limit exceeded: 3 calls per 2 seconds" |
| DecoratorCallables.RequireAuth.Wrapper | 20_advance_python/2_callables/4_decorators_as_callables.py:326-339 | the function is called exactly when the user's role equals the required one; a user without a role gets PermissionError "User has no role"; a different role gets PermissionError naming both roles |
| DecoratorCallables.DeleteUserExample | 20_advance_python/2_callables/4_decorators_as_callables.py:353-373 | the admin Alice deletes user 123; Bob, a plain user, is refused with "Requires admin role, user has user" |
| OrderedDict.Keys | 20_advance_python/3_generics/3_generic_classes.py:327-328 | the keys of a dict in insertion order, one per entry |
| OrderedDict.Values | 20_advance_python/3_generics/5_real_world_examples.py:132 | the values of a dict in insertion order, one per entry |
| OrderedDict.Get | 20_advance_python/3_generics/5_real_world_examples.py:128 | `d.get(k)`: None exactly for an absent key, and otherwise a value stored under it |
| OrderedDict.Set | 20_advance_python/3_generics/5_real_world_examples.py:123 | `d[k] = v`: afterwards the key reads back `v` |
| OrderedDict.SetKeys | 20_advance_python/3_generics/3_generic_classes.py:205 | assigning to a present key keeps its place in the key order; a new key goes at the end |
| OrderedDict.SetPresent | 20_advance_python/3_generics/5_real_world_examples.py:137 | assigning to a present key replaces its entry in place |
| OrderedDict.SetAbsent | 20_advance_python/3_generics/3_generic_classes.py:205 | assigning to a new key appends one entry |
| OrderedDict.SetWf | 20_advance_python/3_generics/3_generic_classes.py:205 | assignment keeps every key on at most one entry |
| OrderedDict.GetSet | 20_advance_python/3_generics/5_real_world_examples.py:123-128 | after `d[k] = v`, reading k gives v and reading any other key gives what it gave before |
| OrderedDict.Remove | 20_advance_python/3_generics/3_generic_classes.py:220 | `del d[k]` never adds entries |
| OrderedDict.RemovePresent | 20_advance_python/3_generics/5_real_world_examples.py:144 | deleting a present key takes out exactly its entry and keeps the order of the rest |
| OrderedDict.RemoveAbsent | 20_advance_python/3_generics/3_generic_classes.py:217-222 | removing an absent key leaves the dict as it was |
| OrderedDict.RemoveWf | 20_advance_python/3_generics/3_generic_classes.py:220 | deletion keeps every key on at most one entry, and the key is gone afterwards |
| OrderedDict.GetRemove | 20_advance_python/3_generics/5_real_world_examples.py:143-146 | after deleting k, reading k gives None and reading any other key gives what it gave before |
| OrderedDict.RemoveCount | 20_advance_python/3_generics/5_real_world_examples.py:148-150 | deleting a present key lowers the length by one; an absent key leaves it |
| Strings.Strip | 18_oops/9_static_methods.py:13 | `str.strip()`: the result neither starts nor ends with whitespace |
| Strings.StripIdempotent | 18_oops/9_static_methods.py:13 | stripping twice is stripping once |
| Strings.Split | 18_oops/10_staticmethod_vs_classmethod.py:59 | `str.split(sep)`: one more piece than there are separators, none containing the separator |
| Strings.JoinSplit | 18_oops/10_staticmethod_vs_classmethod.py:59 | joining the pieces of a split with the separator gives back the string |
| Strings.SplitJoin | 18_oops/9_static_methods.py:13 | splitting separator-free pieces joined by the separator gives back the pieces |
| Strings.SplitFour | 18_oops/9_static_methods.py:13 | four comma-free pieces joined by commas split back into those four pieces |
| Strings.ContainsAt | 20_advance_python/2_callables/5_practical_examples.py:184 | `needle in hay` holds exactly when the needle sits at some offset of the hay |
| Strings.LowerUpper | 20_advance_python/2_callables/5_practical_examples.py:180-184 | lower-casing an upper-cased string is lower-casing it |
| Strings.ParseNatToString | 19_files_and_expetion_handling/7_mini_project.py:13 | `str(n)` of a natural number reads back as n, so distinct numbers are shown differently |
| Seqs.Filter | 20_advance_python/3_generics/2_typevar_basics.py:164-166 | a list comprehension with a condition: no longer than the input, every element kept satisfies the condition |
| Seqs.FilterCounts | 20_advance_python/3_generics/2_typevar_basics.py:164-166 | what a filter keeps comes from the input, and every element satisfying the condition is kept as often as it occurs |
| Seqs.FilterConcat | 20_advance_python/3_generics/2_typevar_basics.py:164-166 | filtering a concatenation is filtering each part, in order |
| Seqs.FilterInOrder | 20_advance_python/3_generics/2_typevar_basics.py:164-166 | the kept elements are the satisfying elements of the input read off at increasing positions, every satisfying position included |
| Seqs.FilterFilter | 20_advance_python/2_callables/5_practical_examples.py:194-195 | filtering twice is filtering once by both conditions |
| Seqs.Map | 20_advance_python/3_generics/2_typevar_basics.py:169-171 | a list comprehension over every element: same length, element i is f of input element i |
| Seqs.IndexOf | 20_advance_python/2_callables/5_practical_examples.py:357 | `list.index(x)`: None exactly when x is absent, and otherwise the position of its first occurrence |
| Seqs.RemoveFirst | 20_advance_python/2_callables/5_practical_examples.py:346 | `list.remove(x)`: None exactly when x is absent, and otherwise the list with one occurrence fewer |
| Seqs.InsertAt | 20_advance_python/2_callables/5_practical_examples.py:362 | `list.insert(i, x)`: x lands at position i, clamped to the list, and the other elements keep their order |
| Seqs.RemoveThenInsert | 20_advance_python/2_callables/5_practical_examples.py:357-362 | removing the first occurrence and inserting it back at its old index restores the list |
| Seqs.AppendThenRemove | 20_advance_python/2_callables/5_practical_examples.py:342-346 | appending x and removing x's first occurrence gives back the list exactly when the list holds no x, or every element from its first x on is x |
| Seqs.Reverse | 20_advance_python/2_callables/6_advanced_callables.py:138 | `reversed(s)`: same length, element i is the element i places from the end |
| Seqs.Prefix | 20_advance_python/2_callables/5_practical_examples.py:106 | `s[:n]`: the first n elements, or all of them when there are fewer |
| Seqs.Suffix | 20_advance_python/2_callables/5_practical_examples.py:80 | `s[-n:]`: the last n elements, or all of them when there are fewer |
| Strings.StripLeft | 18_oops/9_static_methods.py:13 | `s.lstrip()`: the result does not start with whitespace |
| Strings.StripRight | 18_oops/9_static_methods.py:13 | `s.rstrip()`: the result does not end with whitespace |
| Strings.LeadingAreSpaces | 18_oops/9_static_methods.py:13 | everything `strip` drops from the front is whitespace |
| Strings.TrailingAreSpaces | 18_oops/9_static_methods.py:13 | everything `strip` drops from the back is whitespace |
| Strings.StripInfix | 18_oops/9_static_methods.py:13 | the stripped string is the original with its leading and trailing whitespace cut off |
| Strings.StripKeepsAbsent | 18_oops/9_static_methods.py:13 | stripping never introduces a character the string did not hold |
| Strings.RemoveSpaces | 20_advance_python/2_callables/6_advanced_callables.py:197-198 | `text.replace(" ", "")`: the result holds no space and is no longer than the text |
| Strings.RemoveSpacesConcat | 20_advance_python/2_callables/6_advanced_callables.py:197-198 | removing the spaces of a concatenation removes them from each part |
| Strings.RemoveSpacesNone | 20_advance_python/2_callables/6_advanced_callables.py:197-198 | a text without spaces is left as it is |
| Strings.NatToString | 19_files_and_expetion_handling/7_mini_project.py:13 | `str(n)`: at least one character, all decimal digits, no leading zero |
| Seqs.Notifications | 20_advance_python/2_callables/5_practical_examples.py:27-29 | one call per listener, in order, each with the same argument |

## Left out

- Floating point: prices, discounts, amounts and radii are exact `real`s. Results that the source computes in floating point are not modelled: the Order subtotal, tax and total, `OrderItem.subtotal`, the `ShoppingCart` total, Product savings and final price, Rectangle, Circle area and circumference, and the floating-point rounding of `divide`'s quotient, which the model keeps as an exact `real`.
- PostInit.NewBMI: computes the BMI exactly, without rounding to one decimal. The contract states the positivity check, that the BMI times the height squared is the weight, and the category of that exact BMI; the printed one-decimal value is not modelled.
- Payment amounts are kept as opaque `real` values and copied into the receipts unchanged. Their `:.2f` formatting is not modelled.
- Clock: `datetime.now()` timestamps are not modelled. This covers the API response, the e-commerce order and the dataclass order. `time.time()` in the rate limiting decorator becomes an integer `now` argument.
- Retry's delay between attempts and other `time.sleep` calls are not modelled, because waiting has no observable effect on the results.
- `Timer`, `SimpleDecorator` and `Debug` are left out. They only print, or they build a `repr`-based signature string.
- `TypedCallable` and `ValidateTypes` are left out. They rely on `isinstance` checks over Python's runtime types.
- The regex `PatternValidator` is left out. Regular-expression matching is not part of this model.
- `functools.wraps` / `update_wrapper` metadata, `__doc__`, `help()` and the `greet.times_called` attribute are left out. They are reflection on function objects.
- Printed text is left out, together with the `__repr__`/`__str__` of every class. The exceptions are the lines of the chai `bill`, which are its observable result, and the denial path of `require_admin`.
- A callback that only prints is modelled as a recorded log of its calls. This applies to the EventEmitter handlers, the Observable listeners and the memoised computations.
- `dataclasses.fields` metadata of `ConfigSetting`, `repr=False` on `User`, and the `init=False` timestamp of the dataclass `Order` are left out. They are reflection or printing only.
- Objects are not aliased. The cart's order items, the middlewares of the server pipeline and the repository entities are values. Increasing a cart line's quantity replaces the line, and the effect is the same.
- Case mapping (`upper`, `lower` and the case-insensitive `Contains` filter) covers ASCII letters only. Python's full Unicode case mapping is not modelled.
- Strings.RemoveSpaces: its own contract states only that no space remains and that the result is not longer. The exact result is given by `Strings.RemoveSpacesConcat` and `Strings.RemoveSpacesNone`.
- DecoratorCallables.Repeat.Wrapper: the repeated function is pure, so every one of the collected results is equal. Side effects between repetitions are not modelled.
- DecoratorCallables.MemoFibonacci.Call: specialises `Memoize` to the recursive `fibonacci`. The memo table holds the values of the inner recursive calls.
- TypeVarBasics.Cache.Get, GenericClasses.Cache.Get, GenericClasses.Repository.Get, RealWorldGenerics.CrudRepository.GetById, OrderedDict.Get: return an `Option`, so a stored `None` and a missing key stay distinct. Python's `dict.get` returns `None` for both.
- GenericClasses.Box.Get, GenericClasses.Outcome.IsSuccess, RealWorldGenerics.ApiResponse.IsSuccess, RealWorldGenerics.ValidationResult.IsValid, RealWorldGenerics.Observable.Get, RealWorldGenerics.StateMachine.GetState, AdvancedCallables.ChainableList.Get: one-line getters and tests with no row of their own. What they return is stated by the rows of `BoxReadBack`, `Success`/`Failure`, `GetData`, `MakeValidationResult`, `Observable.Set`, `StateMachine.Trigger` and the ChainableList operations.
- AdvancedCallables.AddFive, AdvancedCallables.MultiplyByTwo, AdvancedCallables.Square, AdvancedCallables.AddBrackets, AdvancedCallables.IsEven, AdvancedCallables.Plus, AdvancedCallables.RangeValidator.Accepts, AdvancedCallables.LengthValidator.Accepts, DecoratorCallables.SayHi, DecoratorCallables.ApiCall, DecoratorCallables.DeleteUser, AuthDecorator.AccessTeaInventory: one-line script helpers with no row of their own. Their results are stated by `ComposeExample`, `PipelineExample`/`HelloWorldText`, `ChainExample`, `LengthIsRange`/`ValidatorExamples`, `SayHiExample`, `ApiExample`, `DeleteUserExample` and `InventoryExample`.
- DecoratorCallables.RequireAuth.Wrapper: a user with no `role` attribute is modelled as a role of `None`.
- ChaiBill.Bill: the cups argument is an integer or some other value. No other Python type is distinguished, and `cups * price` on a string is not modelled because the `isinstance` check comes first.
- ChaiFunctions.ChaiFlavour: is stated by its definition and the default-argument example only. Its local `chai` variable has no effect, so there is nothing further to prove about it.
- PracticalCallables.Executed: the `ValueError` raised by `list.index` carries a fixed text. Python's names the item's `repr`, which a generic item type cannot render.
- ChaiClasses.FromStr: uses the Python 3 `ValueError` texts for a wrong number of pieces.
- The infinite generator is a class whose counter field persists between `next` calls. Python's generator protocol (`send`, `close`, `yield from`) is not modelled.
- FieldFunction.CharacterExample: assigns the equipped weapon directly to the `equippedItems` map, as the script does.
- The independence of `TodoList` task lists is shown on two freshly allocated objects. The mutable-default pitfall that `field(default_factory=list)` avoids is not modelled.
- The language-semantics demonstrations in the numbered chapters 03 to 15 and most of 18_oops are left out. They only exercise Python's built-ins. The same holds for the generator-protocol demos in 16_generators and the print-only decorator demos in 17_decorators.
- Dataclass ordering and `sorted()` in 20_advance_python/1_dataclasses/8_ordering_and_comparison.py are left out. They are generated comparisons over floats.
- File writing in 19_files_and_expetion_handling/8_files.py is left out, because it is file I/O.
- 20_advance_python/3_generics/4_bounded_typevars.py is not part of this model. Its `total_area` is a floating-point computation.
