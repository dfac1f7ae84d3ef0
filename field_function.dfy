/** Dataclass fields with per-instance defaults and fields left out of equality. */
module FieldFunction {

  /** `TodoList(owner)`: every instance starts with a task list of its own. */
  class TodoList {
    const owner: string
    var tasks: seq<string>

    constructor (owner: string)
      ensures this.owner == owner && tasks == []
    {
      this.owner := owner;
      tasks := [];
    }

    /** `todos.tasks.append(task)`. */
    method Append(task: string)
      modifies this
      ensures tasks == old(tasks) + [task]
    {
      tasks := tasks + [task];
    }
  }

  /** Appending to one list leaves another list's tasks as they were. */
  method TodoExample() returns (alice: TodoList, bob: TodoList)
    ensures fresh(alice) && fresh(bob) && alice != bob
    ensures alice.tasks == ["Buy groceries", "Call mom"]
    ensures bob.tasks == ["Finish report"]
  {
    alice := new TodoList("Alice");
    bob := new TodoList("Bob");
    alice.Append("Buy groceries");
    alice.Append("Call mom");
    bob.Append("Finish report");
  }

  /** A product; `stock` and `lastUpdated` are declared with `compare=False`. */
  datatype Product = Product(productId: int, name: string, price: real, stock: int, lastUpdated: string)

  /** The product with its non-compared fields blanked. */
  function ComparedPart(p: Product): (r: Product)
    ensures r.productId == p.productId && r.name == p.name && r.price == p.price
    ensures r.stock == 0 && r.lastUpdated == ""
  {
    p.(stock := 0, lastUpdated := "")
  }

  /** `==` on products: only id, name and price are compared. */
  function SameProduct(a: Product, b: Product): (r: bool)
    ensures r <==> ComparedPart(a) == ComparedPart(b)
  {
    assert ComparedPart(a) == ComparedPart(b) ==> ComparedPart(a).productId == ComparedPart(b).productId;
    a.productId == b.productId && a.name == b.name && a.price == b.price
  }

  /** Changing the stock or the timestamp never affects equality. */
  lemma SameProductIgnores(a: Product, b: Product, stock: int, lastUpdated: string)
    ensures SameProduct(a, b) <==> SameProduct(a.(stock := stock, lastUpdated := lastUpdated), b)
  {
  }

  /** Product comparison is an equivalence relation. */
  lemma SameProductEquivalence(a: Product, b: Product, c: Product)
    ensures SameProduct(a, a)
    ensures SameProduct(a, b) ==> SameProduct(b, a)
    ensures SameProduct(a, b) && SameProduct(b, c) ==> SameProduct(a, c)
  {
  }

  /** The two laptops with different stock compare equal. */
  lemma LaptopsEqual()
    ensures SameProduct(Product(101, "Laptop", 999.99, 10, "2025-01-01"),
                        Product(101, "Laptop", 999.99, 5, "2025-01-15"))
  {
  }

  /** A blog post; `views` and `internalNotes` are declared with `compare=False`. */
  datatype BlogPost = BlogPost(postId: int, title: string, content: string, author: string,
                               tags: seq<string>, views: int, internalNotes: string)

  /** `BlogPost(post_id, title, content, author)`: no tags, no views, no notes. */
  function NewBlogPost(postId: int, title: string, content: string, author: string): (r: BlogPost)
    ensures r.postId == postId && r.title == title && r.content == content && r.author == author
    ensures r.tags == [] && r.views == 0 && r.internalNotes == ""
  {
    BlogPost(postId, title, content, author, [], 0, "")
  }

  /** `==` on blog posts: every field except views and internal notes. */
  function SamePost(a: BlogPost, b: BlogPost): (r: bool)
    ensures r <==> a.(views := 0, internalNotes := "") == b.(views := 0, internalNotes := "")
  {
    var a0, b0 := a.(views := 0, internalNotes := ""), b.(views := 0, internalNotes := "");
    assert a0 == b0 ==> a0.postId == b0.postId && a0.tags == b0.tags;
    a.postId == b.postId && a.title == b.title && a.content == b.content
    && a.author == b.author && a.tags == b.tags
  }

  /** Views and notes never affect equality. */
  lemma SamePostIgnores(a: BlogPost, b: BlogPost, views: int, notes: string)
    ensures SamePost(a, b) <==> SamePost(a.(views := views, internalNotes := notes), b)
  {
  }

  /** Two posts with the same content and tags but 1500 and 3000 views compare equal. */
  lemma PostsEqual()
    ensures var base := NewBlogPost(1, "Introduction to Python Dataclasses", "Dataclasses are awesome...", "TechWriter");
      SamePost(base.(tags := base.tags + ["python", "tutorial"], views := 1500),
               base.(tags := base.tags + ["python", "tutorial"], views := 3000))
  {
  }

  /** The default statistics of a new character. */
  function DefaultStats(): (r: map<string, int>)
    ensures r.Keys == {"strength", "intelligence", "agility"}
    ensures forall k :: k in r ==> r[k] == 10
  {
    map["strength" := 10, "intelligence" := 10, "agility" := 10]
  }

  /** `GameCharacter(name, character_class, level=1, health=100, mana=50, inventory=[],
      equipped_items={}, stats=...)`, each default a fresh collection. */
  class GameCharacter {
    const name: string
    const characterClass: string
    var level: int
    var health: int
    var mana: int
    var inventory: seq<string>
    var equippedItems: map<string, string>
    var stats: map<string, int>

    constructor (name: string, characterClass: string, level: int := 1, health: int := 100, mana: int := 50,
                 inventory: seq<string> := [], equippedItems: map<string, string> := map[],
                 stats: map<string, int> := DefaultStats())
      ensures this.name == name && this.characterClass == characterClass
      ensures this.level == level && this.health == health && this.mana == mana
      ensures this.inventory == inventory && this.equippedItems == equippedItems && this.stats == stats
    {
      this.name := name;
      this.characterClass := characterClass;
      this.level := level;
      this.health := health;
      this.mana := mana;
      this.inventory := inventory;
      this.equippedItems := equippedItems;
      this.stats := stats;
    }

    /** `level_up()`: one more level, 20 more health and 10 more mana; nothing else changes. */
    method LevelUp()
      modifies this
      ensures level == old(level) + 1 && health == old(health) + 20 && mana == old(mana) + 10
      ensures inventory == old(inventory) && equippedItems == old(equippedItems) && stats == old(stats)
    {
      level := level + 1;
      health := health + 20;
      mana := mana + 10;
    }

    /** `add_to_inventory(item)`: the item goes at the end; nothing else changes. */
    method AddToInventory(item: string)
      modifies this
      ensures inventory == old(inventory) + [item]
      ensures level == old(level) && health == old(health) && mana == old(mana)
      ensures equippedItems == old(equippedItems) && stats == old(stats)
    {
      inventory := inventory + [item];
    }
  }

  /** The warrior and the mage of the example, after the warrior levels up. */
  method CharacterExample() returns (warrior: GameCharacter, mage: GameCharacter)
    ensures warrior.level == 2 && warrior.health == 120 && warrior.mana == 60
    ensures warrior.inventory == ["Iron Sword", "Health Potion"]
    ensures warrior.equippedItems == map["weapon" := "Iron Sword"]
    ensures mage.level == 10 && mage.health == 100 && mage.mana == 50
    ensures mage.inventory == ["Magic Staff", "Spell Book"] && mage.stats == DefaultStats()
  {
    warrior := new GameCharacter("Aragorn", "Warrior");
    mage := new GameCharacter("Gandalf", "Mage", level := 10);
    warrior.AddToInventory("Iron Sword");
    warrior.AddToInventory("Health Potion");
    warrior.equippedItems := warrior.equippedItems["weapon" := "Iron Sword"];
    mage.AddToInventory("Magic Staff");
    mage.AddToInventory("Spell Book");
    warrior.LevelUp();
  }
}
