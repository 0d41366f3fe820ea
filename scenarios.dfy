/**
 * The plans the repository's own examples expect, derived from the model.
 * The host here shows every exposure and leaves the options as they are,
 * as the stubbed `should_return_key?` and `for_nesting` of those examples do.
 *
 * Those examples stub `preload_association` (and `preload_callback`), not the
 * `preload` reader that lib/grape/entity/preloader.rb sends, and some call an
 * `extract_preload_options` the library does not define: they are out of date
 * with the library. The scenarios read each stubbed `preload_association`
 * value as the exposure's `preload`.
 */
module PreloaderScenarios {
  import opened RubyValues
  import opened AssociationPlans
  import opened Exposures
  import opened Extraction

  function ShowAll(): Host<int>
  {
    Host((e: Exposure, o: int) => true, (o: int, k: Sym) => o)
  }

  function HideAll(): Host<int>
  {
    Host((e: Exposure, o: int) => false, (o: int, k: Sym) => o)
  }

  function Leaf(name: Sym, preload: Option<Sym>): Exposure
  {
    Exposure(name, Static(name), preload, Plain)
  }

  /** No exposures: the loader is called with `{}`. */
  lemma NoExposuresGiveEmptyHash()
    ensures Walk(ShowAll(), [], Empty(), 0) == Empty()
  {
  }

  /** `books` with `preload: :books` next to `name` without: `{ books: {} }`. */
  lemma PreloadedLeafGivesEntry()
    ensures Walk(ShowAll(), [Leaf("books", Some("books")), Leaf("name", None)], Empty(), 0)
         == Single("books", Empty())
  {
    var w := Walk(ShowAll(), [Leaf("books", Some("books"))], Empty(), 0);
    assert [Leaf("books", Some("books")), Leaf("name", None)][..1] == [Leaf("books", Some("books"))];
    assert w.entries == map["books" := Empty()];
  }

  /** Nesting `author` holding `books`: the two are siblings, `{ author: {}, books: {} }`. */
  lemma NestedExposuresAreSiblings()
    ensures Walk(ShowAll(),
                 [Exposure("author", Static("author"), Some("author"), Nesting([Leaf("books", Some("books"))]))],
                 Empty(), 0)
         == Plan(map["author" := Empty(), "books" := Empty()])
  {
    var touched := Single("author", Empty());
    var r := Walk(ShowAll(), [Leaf("books", Some("books"))], touched, 0);
    assert r.entries == map["author" := Empty(), "books" := Empty()];
  }

  /** A represent exposure whose linked entity exposes nothing: `{ related_items: {} }`. */
  lemma RepresentWithEmptyEntity()
    ensures Walk(ShowAll(),
                 [Exposure("related_items", Static("related_items"), Some("related_items"), Represent([]))],
                 Empty(), 0)
         == Single("related_items", Empty())
  {
    assert Touch(Empty(), "related_items").entries == map["related_items" := Empty()];
  }

  /** A represent exposure `author` whose entity preloads `books`: `{ author: { books: {} } }`. */
  lemma RepresentNestsUnderPreload()
    ensures Walk(ShowAll(),
                 [Exposure("author", Static("author"), Some("author"), Represent([Leaf("books", Some("books"))]))],
                 Empty(), 0)
         == Single("author", Single("books", Empty()))
  {
    var inner := Walk(ShowAll(), [Leaf("books", Some("books"))], Empty(), 0);
    assert inner.entries == map["books" := Empty()];
    assert Touch(Empty(), "author").entries == map["author" := Empty()];
  }

  /** An exposure that should not return its key: `{}`. */
  lemma HiddenExposureGivesEmptyHash()
    ensures Walk(HideAll(), [Leaf("books", Some("books"))], Empty(), 0) == Empty()
  {
  }

  /** A plain exposure under a dynamic key with `preload: :books`: `{ books: {} }`. */
  lemma DynamicPlainKeepsEntry()
    ensures Walk(ShowAll(), [Exposure("books", Dynamic, Some("books"), Plain)], Empty(), 0)
         == Single("books", Empty())
  {
    assert Touch(Empty(), "books").entries == map["books" := Empty()];
  }

  /** A represent exposure under a dynamic key with `preload: :books`: the entry is made, the linked exposures are not visited. */
  lemma DynamicKeyKeepsEntry()
    ensures Walk(ShowAll(),
                 [Exposure("books", Dynamic, Some("books"), Represent([Leaf("title", Some("title"))]))],
                 Empty(), 0)
         == Single("books", Empty())
  {
    assert Touch(Empty(), "books").entries == map["books" := Empty()];
  }
}
