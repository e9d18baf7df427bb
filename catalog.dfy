/** The static food catalog and the flattening of the selected categories
    into one ordered list of brand groups. */
module KeywordCatalog {

  /** A brand and its keyword synonyms, searched as one entity by the API. */
  datatype BrandGroup = BrandGroup(groupName: string, keywords: seq<string>)

  /** Category name to its brand groups. */
  type Catalog = map<string, seq<BrandGroup>>

  /** The three categories the dashboard offers, in their display order. */
  const Categories: seq<string> := ["피자", "햄버거", "치킨"]

  /** The catalog the dashboard ships with. */
  function CategoryBrands(): Catalog
  {
    map[
      "피자" := [
        BrandGroup("피자헛", ["피자헛", "피자 헛", "pizzahut"]),
        BrandGroup("도미노피자", ["도미노피자", "도미도", "Domino", "Domino's Pizza", "도미노"]),
        BrandGroup("미스터피자", ["미스터피자", "Mr피자", "Mr.Pizza"]),
        BrandGroup("피자알볼로", ["피자알볼로", "알볼로", "알볼로피자"]),
        BrandGroup("7번가피자", ["7번가피자", "세븐번가피자", "세븐가피자"]),
        BrandGroup("피자나라치킨공주", ["피자나라치킨공주", "피자나라 치킨공주", "피치공"]),
        BrandGroup("파파존스피자", ["파파존스피자", "파파존스", "Papa John's"]),
        BrandGroup("피자스쿨", ["피자스쿨", "피자 스쿨"])
      ],
      "햄버거" := [
        BrandGroup("맥도날드", ["맥도날드", "McDonald's", "맥날"]),
        BrandGroup("버거킹", ["버거킹", "Burger King"]),
        BrandGroup("롯데리아", ["롯데리아", "Lotteria"]),
        BrandGroup("노브랜드버거", ["노브랜드버거", "노브랜드 버거", "No Brand Burger"])
      ],
      "치킨" := [
        BrandGroup("교촌치킨", ["교촌치킨", "교촌"]),
        BrandGroup("BBQ", ["BBQ치킨", "비비큐", "BBQ"]),
        BrandGroup("BHC", ["BHC치킨", "비에이치씨", "bhc"]),
        BrandGroup("굽네치킨", ["굽네치킨", "굽네"]),
        BrandGroup("푸라닭", ["푸라닭", "Puradak"])
      ]
    ]
  }

  /** Every selected category is a key of the catalog (the multiselect offers only keys). */
  predicate Known(catalog: Catalog, selected: seq<string>)
  {
    forall c :: c in selected ==> c in catalog
  }

  /** The groups of the selected categories, category after category, in selection order. */
  function Flatten(catalog: Catalog, selected: seq<string>): seq<BrandGroup>
    requires Known(catalog, selected)
  {
    if selected == [] then []
    else Flatten(catalog, selected[..|selected| - 1]) + catalog[selected[|selected| - 1]]
  }

  lemma {:induction false} FlattenAppend(catalog: Catalog, a: seq<string>, b: seq<string>)
    requires Known(catalog, a + b)
    ensures Known(catalog, a) && Known(catalog, b)
    ensures Flatten(catalog, a + b) == Flatten(catalog, a) + Flatten(catalog, b)
  {
    assert forall c :: c in a ==> c in a + b;
    assert forall c :: c in b ==> c in a + b;
    if b == [] {
      assert a + b == a;
    } else {
      var b' := b[..|b| - 1];
      assert (a + b)[..|a + b| - 1] == a + b';
      assert forall c :: c in a + b' ==> c in a + b;
      FlattenAppend(catalog, a, b');
    }
  }

  /** A group is in the flattened list exactly when some selected category holds it. */
  lemma {:induction false} FlattenMember(catalog: Catalog, selected: seq<string>, g: BrandGroup)
    requires Known(catalog, selected)
    ensures g in Flatten(catalog, selected) <==> exists c :: c in selected && g in catalog[c]
  {
    if selected != [] {
      var init := selected[..|selected| - 1];
      var last := selected[|selected| - 1];
      assert selected == init + [last];
      FlattenMember(catalog, init, g);
      assert forall c :: c in selected <==> c in init || c == last;
    }
  }

  /** Selecting one category yields exactly its groups. */
  lemma FlattenSingle(catalog: Catalog, c: string)
    requires c in catalog
    ensures Flatten(catalog, [c]) == catalog[c]
  {
    assert [c][..0] == [];
  }

  /** The flattening loop: append every group of every selected category. */
  method CollectGroups(catalog: Catalog, selected: seq<string>) returns (groups: seq<BrandGroup>)
    requires Known(catalog, selected)
    ensures groups == Flatten(catalog, selected)
  {
    groups := [];
    for i := 0 to |selected|
      invariant groups == Flatten(catalog, selected[..i])
    {
      var cat := selected[i];
      var brands := catalog[cat];
      for j := 0 to |brands|
        invariant groups == Flatten(catalog, selected[..i]) + brands[..j]
      {
        groups := groups + [brands[j]];
        assert brands[..j + 1] == brands[..j] + [brands[j]];
      }
      assert brands[..|brands|] == brands;
      assert selected[..i + 1][..i] == selected[..i];
    }
    assert selected[..|selected|] == selected;
  }

  /** Selecting all categories, in display order, asks for all seventeen groups. */
  lemma AllCategoriesFlatten()
    ensures Known(CategoryBrands(), Categories)
    ensures |Flatten(CategoryBrands(), Categories)| == 17
  {
    var c := CategoryBrands();
    assert |c["피자"]| == 8 && |c["햄버거"]| == 4 && |c["치킨"]| == 5;
    assert Categories == ["피자", "햄버거"] + ["치킨"];
    assert ["피자", "햄버거"] == ["피자"] + ["햄버거"];
    FlattenSingle(c, "피자");
    FlattenSingle(c, "햄버거");
    FlattenSingle(c, "치킨");
    FlattenAppend(c, ["피자"], ["햄버거"]);
    FlattenAppend(c, ["피자", "햄버거"], ["치킨"]);
  }
}
