/** The catalogues of the fixture server: their sizes, and what following the cursors collects. */
module McpCatalog {
  import opened Json
  import opened Ordering
  import opened Text
  import opened McpServer

  // ----- pages -----

  /** Up to `n` pages from a cursor on, and where the listing stands: the next cursor, or the end. */
  function Follow(w: World, cfg: Config, cursor: Json, n: nat): (seq<Json>, Option<Json>)
    decreases n
  {
    if n == 0 then ([], Some(cursor))
    else
      var page := ToolPage(w, cfg, cursor);
      if page.None? then ([], Some(cursor))
      else if page.value.1.None? then (page.value.0, None)
      else
        var (more, next) := Follow(w, cfg, Str(page.value.1.value), n - 1);
        (page.value.0 + more, next)
  }

  lemma TakeDropAll(xs: seq<Json>, n: nat)
    ensures Take(xs, n) + Drop(xs, n) == xs
  {
  }

  lemma LastPages(w: World, cfg: Config, n: nat)
    requires Paged(cfg) && n > 0
    ensures cfg.profile == REVIEW_PROFILE ==> Follow(w, cfg, Str(REVIEW_PAGE_CURSOR), n) == (Drop(Definitions(w, cfg), 2), None)
    ensures cfg.profile == REPEATED_CURSOR_PROFILE ==> Follow(w, cfg, Str(REVIEW_PAGE_CURSOR), n).1.Some?
    decreases n
  {
    hide Definitions, Drop;
    if cfg.profile == REPEATED_CURSOR_PROFILE && n > 1 {
      LastPages(w, cfg, n - 1);
    }
  }

  /**
   * Following the cursors from the first page collects the whole tool catalogue once, in order, and
   * ends within two pages, except under the repeated-cursor profile, where it never ends.
   */
  lemma PagesMakeTheCatalogue(w: World, cfg: Config, n: nat)
    requires n >= 2
    ensures
      if Paged(cfg) && cfg.profile == REPEATED_CURSOR_PROFILE then Follow(w, cfg, Null, n).1.Some?
      else Follow(w, cfg, Null, n) == (Definitions(w, cfg), None)
  {
    hide *;
    if Paged(cfg) {
      TakeDropAll(Definitions(w, cfg), 2);
      LastPages(w, cfg, n - 1);
      FirstOfPages(w, cfg, n);
    } else {
      OnlyPage(w, cfg, n);
    }
  }

  lemma OnlyPage(w: World, cfg: Config, n: nat)
    requires !Paged(cfg) && n > 0
    ensures Follow(w, cfg, Null, n) == (Definitions(w, cfg), None)
  {
    hide Definitions, Drop, Take;
  }

  lemma FirstOfPages(w: World, cfg: Config, n: nat)
    requires Paged(cfg) && n > 1
    ensures
      var rest := Follow(w, cfg, Str(REVIEW_PAGE_CURSOR), n - 1);
      Follow(w, cfg, Null, n) == (Take(Definitions(w, cfg), 2) + rest.0, rest.1)
    ensures cfg.profile == REVIEW_PROFILE || cfg.profile == REPEATED_CURSOR_PROFILE
  {
    hide Definitions, Drop, Take;
  }

  /** The two resource pages are the two resources, and the second ends the listing. */
  lemma ResourcePages(w: World)
    ensures
      var first := ResourcePage(w, Null);
      && first.Some? && first.value.1.Some?
      && var second := ResourcePage(w, Str(first.value.1.value));
         second.Some? && second.value.1.None? && first.value.0 + second.value.0 == [w.resource(0), w.resource(1)]
  {
  }

  // ----- sizes -----

  lemma {:induction false} SortedLength(s: set<seq<string>>)
    ensures |Sorted(s)| == |s|
    decreases s
  {
    if s != {} {
      var first := Sorted(s)[0];
      assert Sorted(s) == [first] + Sorted(s - {first});
      SortedLength(s - {first});
    }
  }

  function Singletons(names: set<string>): set<seq<string>> { set x | x in names :: [x] }

  lemma {:induction false} SingletonsSize(names: set<string>)
    ensures |Singletons(names)| == |names|
    decreases names
  {
    if names != {} {
      var x :| x in names;
      SingletonsSize(names - {x});
      assert Singletons(names) == Singletons(names - {x}) + {[x]};
      forall y | y in names - {x} ensures [y] != [x] {
        assert [y][0] == y && [x][0] == x;
      }
    } else {
      assert Singletons(names) == {};
    }
  }

  lemma DigitInjective(m: nat, n: nat)
    requires m < 10 && n < 10 && Digit(m) == Digit(n)
    ensures m == n
  {
  }

  lemma FourDigitsInjective(m: nat, n: nat)
    requires m < 10000 && n < 10000 && FourDigits(m) == FourDigits(n)
    ensures m == n
  {
    var (a, b) := (FourDigits(m), FourDigits(n));
    assert a[0] == b[0] && a[1] == b[1] && a[2] == b[2] && a[3] == b[3];
    DigitInjective(m / 1000, n / 1000);
    DigitInjective(m / 100 % 10, n / 100 % 10);
    DigitInjective(m / 10 % 10, n / 10 % 10);
    DigitInjective(m % 10, n % 10);
    hide Digit, FourDigits;
    FromDigits(m);
    FromDigits(n);
  }

  lemma FromDigits(m: nat)
    ensures m == 1000 * (m / 1000) + 100 * (m / 100 % 10) + 10 * (m / 10 % 10) + m % 10
  {
    assert m == 10 * (m / 10) + m % 10;
    assert m / 10 == 10 * (m / 100) + m / 10 % 10;
    assert m / 100 == 10 * (m / 1000) + m / 100 % 10;
  }

  lemma BoundaryNameFacts(m: nat, n: nat)
    requires m < 10000 && n < 10000
    ensures |BoundaryName(m)| == 21
    ensures BoundaryName(m) == BoundaryName(n) ==> m == n
  {
    var p := "catalog_boundary_";
    assert |p| == 17;
    if BoundaryName(m) == BoundaryName(n) {
      assert BoundaryName(m)[17..] == FourDigits(m) && BoundaryName(n)[17..] == FourDigits(n);
      FourDigitsInjective(m, n);
    }
  }

  lemma {:induction false} BoundaryToolsSize(count: nat)
    requires count <= 10000
    ensures |BoundaryTools(count)| == count
  {
    hide BoundaryName;
    if count == 0 {
      assert BoundaryTools(0) == {};
    } else {
      var last := BoundaryName(count - 1);
      BoundaryToolsSize(count - 1);
      assert BoundaryTools(count) == BoundaryTools(count - 1) + {last};
      if last in BoundaryTools(count - 1) {
        var i :| 0 <= i < count - 1 && BoundaryName(i) == last;
        BoundaryNameFacts(i, count - 1);
      }
    }
  }

  lemma PlainToolsFacts(modern: bool)
    ensures |PlainTools(modern)| == if modern then 6 else 5
    ensures forall name <- PlainTools(modern) :: |name| != 21
  {
    var five := {"client_metadata", "echo", "fail", "header_echo", "progress"};
    PlainNamesApart();
    assert |five| == 5;
    if modern {
      assert PlainTools(modern) == five + {"request_input"};
    }
  }

  lemma PlainNamesApart()
    ensures |{"client_metadata", "echo", "fail", "header_echo", "progress"}| == 5
    ensures "request_input" !in {"client_metadata", "echo", "fail", "header_echo", "progress"}
  {
    assert |"client_metadata"| == 15 && |"echo"| == 4 && |"fail"| == 4 && |"header_echo"| == 11 && |"progress"| == 8 && |"request_input"| == 13;
    assert "echo"[0] == 'e' && "fail"[0] == 'f';
    var two := {"echo", "fail"};
    assert |two| == 2;
    var three := two + {"progress"};
    assert |three| == 3;
    var four := three + {"header_echo"};
    assert |four| == 4;
    var five := four + {"client_metadata"};
    assert |five| == 5;
    assert five == {"client_metadata", "echo", "fail", "header_echo", "progress"};
  }

  lemma ToolCount(names: set<string>, plain: nat, count: nat, modern: bool)
    requires count <= 10000 && names == PlainTools(modern) + BoundaryTools(count)
    requires plain == |PlainTools(modern)|
    ensures |names| == plain + count
  {
    PlainToolsFacts(modern);
    BoundaryToolsSize(count);
    hide PlainTools;
    forall name | name in BoundaryTools(count) ensures name !in PlainTools(modern) {
      var i :| 0 <= i < count && name == BoundaryName(i);
      BoundaryNameFacts(i, i);
    }
    hide BoundaryTools;
    assert PlainTools(modern) * BoundaryTools(count) == {};
  }

  lemma DefinitionsSize(w: World, cfg: Config)
    ensures |Definitions(w, cfg)| == |ToolNames(cfg)|
  {
    hide ToolNames, Sorted;
    var names := ToolNames(cfg);
    assert Singletons(names) == set x | x in names :: [x];
    SortedLength(Singletons(names));
    SingletonsSize(names);
  }

  /** The boundary catalogues hold exactly the limit, and exactly one tool more. */
  lemma CatalogueSizes(w: World, cfg: Config)
    ensures cfg.profile == CATALOG_MAX_PROFILE ==> |Definitions(w, cfg)| == MAX_CATALOG_ITEMS
    ensures cfg.profile == CATALOG_OVER_LIMIT_PROFILE ==> |Definitions(w, cfg)| == MAX_CATALOG_ITEMS + 1
  {
    DefinitionsSize(w, cfg);
    PlainToolsFacts(cfg.Modern());
    ProfilesApart();
    hide Definitions, PlainTools, BoundaryTools;
    var plain := |PlainTools(cfg.Modern())|;
    if cfg.profile == CATALOG_MAX_PROFILE {
      ToolCount(ToolNames(cfg), plain, MAX_CATALOG_ITEMS - plain, cfg.Modern());
    } else if cfg.profile == CATALOG_OVER_LIMIT_PROFILE {
      ToolCount(ToolNames(cfg), plain, MAX_CATALOG_ITEMS + 1 - plain, cfg.Modern());
    }
  }

  lemma ProfilesApart()
    ensures CATALOG_MAX_PROFILE != REVIEW_PROFILE && CATALOG_MAX_PROFILE != REPEATED_CURSOR_PROFILE
    ensures CATALOG_OVER_LIMIT_PROFILE != REVIEW_PROFILE && CATALOG_OVER_LIMIT_PROFILE != REPEATED_CURSOR_PROFILE
    ensures CATALOG_MAX_PROFILE != CATALOG_OVER_LIMIT_PROFILE
  {
    assert CATALOG_MAX_PROFILE[0] == 'c' && REVIEW_PROFILE[0] == 'r' && REPEATED_CURSOR_PROFILE[0] == 'r' && CATALOG_OVER_LIMIT_PROFILE[0] == 'c';
    assert |CATALOG_MAX_PROFILE| == 11 && |CATALOG_OVER_LIMIT_PROFILE| == 18;
  }
}
