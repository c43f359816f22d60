/** The keyword breakdown on four sample items, one order holding them all.
    "orange juice" names neither food nor drink, so it falls under Other. */
module StorageExamples {
  import opened JsValues
  import opened Text
  import opened Storage


  lemma ClassifyPhoneCase(item: string)
    requires item == "iPhone case"
    ensures Classify(item) == Electronics
  {
    var l := Lower(item);
    assert l == "iphone case";
    assert Contains(l, "phone") by {
      assert l[1..6] == "phone";
      assert OccursAt(l, "phone", 1);
      ContainsIff(l, "phone");
    }
  }

  /** An item none of whose lower-cased characters is the kp-th letter of
      "phone", the ke-th of "electronic", the kf-th of "food" or the kd-th of
      "drink" gets past the first two rules. */
  lemma PastFirstTwoRules(item: string, kp: nat, ke: nat, kf: nat, kd: nat)
    requires kp < 5 && ke < 10 && kf < 4 && kd < 5
    requires forall i :: 0 <= i < |item| ==>
      LowerChar(item[i]) != "phone"[kp] && LowerChar(item[i]) != "electronic"[ke]
      && LowerChar(item[i]) != "food"[kf] && LowerChar(item[i]) != "drink"[kd]
    ensures var l := Lower(item);
      Classify(item) == if Contains(l, "cloth") || Contains(l, "shirt") then Clothing else Other
  {
    var l := Lower(item);
    AbsentChar(l, "phone", kp);
    AbsentChar(l, "electronic", ke);
    AbsentChar(l, "food", kf);
    AbsentChar(l, "drink", kd);
  }

  /** Missing one letter of each of the six keywords makes an item Other. */
  lemma AtLastRule(item: string, kp: nat, ke: nat, kf: nat, kd: nat, kc: nat, ks: nat)
    requires kp < 5 && ke < 10 && kf < 4 && kd < 5 && kc < 5 && ks < 5
    requires forall i :: 0 <= i < |item| ==>
      LowerChar(item[i]) != "phone"[kp] && LowerChar(item[i]) != "electronic"[ke]
      && LowerChar(item[i]) != "food"[kf] && LowerChar(item[i]) != "drink"[kd]
      && LowerChar(item[i]) != "cloth"[kc] && LowerChar(item[i]) != "shirt"[ks]
    ensures Classify(item) == Other
  {
    PastFirstTwoRules(item, kp, ke, kf, kd);
    var l := Lower(item);
    AbsentChar(l, "cloth", kc);
    AbsentChar(l, "shirt", ks);
  }

  /** "orange juice" names neither food nor drink. */
  lemma ClassifyJuice(item: string)
    requires item == "orange juice"
    ensures Classify(item) == Other
  {
    AtLastRule(item, 0, 1, 0, 0, 1, 0);
  }

  lemma ClassifyTShirt(item: string)
    requires item == "t-shirt"
    ensures Classify(item) == Clothing
  {
    PastFirstTwoRules(item, 0, 0, 0, 0);
    var l := Lower(item);
    assert l[2..7] == "shirt";
    assert OccursAt(l, "shirt", 2);
    ContainsIff(l, "shirt");
  }

  lemma ClassifyWidget(item: string)
    requires item == "random widget"
    ensures Classify(item) == Other
  {
    AtLastRule(item, 0, 1, 0, 4, 1, 0);
  }

  /** The first-seen order of the prefixes of Electronics, Other, Clothing, ... */
  lemma FirstSeenOfTwo(s: seq<Category>)
    requires |s| >= 2 && s[0] == Electronics && s[1] == Other
    ensures FirstSeen(s[..2]) == [Electronics, Other]
  {
    assert s[..0] == [];
    FirstSeenStep(s, 0);
    FirstSeenStep(s, 1);
  }

  lemma FirstSeenOfThree(s: seq<Category>)
    requires |s| >= 3 && s[0] == Electronics && s[1] == Other && s[2] == Clothing
    ensures FirstSeen(s[..3]) == [Electronics, Other, Clothing]
  {
    FirstSeenOfTwo(s);
    FirstSeenStep(s, 2);
  }

  /** The first-seen order of Electronics, Other, Clothing, Other. */
  lemma FirstSeenOfFour(s: seq<Category>)
    requires |s| == 4 && s[0] == Electronics && s[1] == Other && s[2] == Clothing && s[3] == Other
    ensures FirstSeen(s) == [Electronics, Other, Clothing]
  {
    FirstSeenOfThree(s);
    FirstSeenStep(s, 3);
    assert s[..4] == s;
  }

  /** The counts of Electronics, Other, Clothing, Other. */
  lemma CountsOfFour(s: seq<Category>)
    requires |s| == 4 && s[0] == Electronics && s[1] == Other && s[2] == Clothing && s[3] == Other
    ensures var m := CountMap(s);
      Electronics in m && Other in m && Clothing in m
      && m[Electronics] == 1 && m[Other] == 2 && m[Clothing] == 1
  {
    assert s == [Electronics, Other, Clothing, Other];
  }

  /** The entries built for three categories counted 1, 2 and 1 out of 4. */
  lemma ListOfThree(names: seq<Category>, m: map<Category, nat>)
    requires names == [Electronics, Other, Clothing]
    requires Electronics in m && Other in m && Clothing in m
    requires m[Electronics] == 1 && m[Other] == 2 && m[Clothing] == 1
    ensures CategoryList(names, m, 4)
            == [CategoryStat("Electronics", 25, "#6366F1"), CategoryStat("Other", 50, "#8B5CF6"),
                CategoryStat("Clothing", 25, "#00D4FF")]
  {
    var r := CategoryList(names, m, 4);
    assert Percent(1, 4) == 25 && Percent(2, 4) == 50;
    assert r[0] == CategoryStat("Electronics", 25, "#6366F1");
    assert r[1] == CategoryStat("Other", 50, "#8B5CF6");
    assert r[2] == CategoryStat("Clothing", 25, "#00D4FF");
    ThreeElements(r);
  }

  /** The first three percentages of four categories counted 1, 1, 1 and 5
      out of 8: 12.5% rounds up to 13 each time. */
  lemma ThreeEighths(names: seq<Category>, m: map<Category, nat>)
    requires |names| == 4 && names[0] == Electronics && names[1] == Food && names[2] == Clothing
    requires names[3] == Other
    requires Electronics in m && Food in m && Clothing in m && Other in m
    requires m[Electronics] == 1 && m[Food] == 1 && m[Clothing] == 1
    ensures PercentSum(CategoryList(names, m, 8)[..3]) == 39
  {
    var r := CategoryList(names, m, 8);
    assert Percent(1, 8) == 13;
    assert r[0].percentage == 13 && r[1].percentage == 13 && r[2].percentage == 13;
    assert r[..1][..0] == [];
    assert PercentSum(r[..1]) == 13;
    assert r[..2][..1] == r[..1];
    assert PercentSum(r[..2]) == 26;
    assert r[..3][..2] == r[..2];
  }

  /** Four categories counted 1, 1, 1 and 5 out of 8: 12.5% rounds up three
      times and 62.5% once, so the percentages add up to 102, not 100. */
  lemma SharesCanSumTo102(names: seq<Category>, m: map<Category, nat>)
    requires |names| == 4 && names[0] == Electronics && names[1] == Food && names[2] == Clothing
    requires names[3] == Other
    requires Electronics in m && Food in m && Clothing in m && Other in m
    requires m[Electronics] == 1 && m[Food] == 1 && m[Clothing] == 1 && m[Other] == 5
    ensures PercentSum(CategoryList(names, m, 8)) == 102
  {
    var r := CategoryList(names, m, 8);
    ThreeEighths(names, m);
    assert Percent(5, 8) == 63;
    assert r[3].percentage == 63;
    assert r[..3] == r[..|r| - 1];
  }

  lemma ThreeElements<T>(r: seq<T>)
    requires |r| == 3
    ensures r == [r[0], r[1], r[2]]
  {
  }

  /** One order whose items fall under Electronics, Other, Clothing, Other:
      a quarter, a half and a quarter, in first-seen and palette order. */
  lemma BreakdownOfOneOrder(o: Order)
    requires |OrderCategories(o)| == 4
    requires OrderCategories(o)[0] == Electronics && OrderCategories(o)[1] == Other
    requires OrderCategories(o)[2] == Clothing && OrderCategories(o)[3] == Other
    ensures TopCategories([o])
            == [CategoryStat("Electronics", 25, "#6366F1"), CategoryStat("Other", 50, "#8B5CF6"),
                CategoryStat("Clothing", 25, "#00D4FF")]
  {
    var s := ItemCategories([o]);
    assert s == OrderCategories(o) by {
      assert [o][..0] == [];
    }
    FirstSeenOfFour(s);
    CountsOfFour(s);
    TopCategoriesIsList([o]);
    ListOfThree(FirstSeen(s), CountMap(s));
  }

  /** The four sample items in one order. */
  lemma ExampleBreakdown(o: Order)
    requires o == Order(None, None, "", Finite(0), Array([StringItem("iPhone case"),
               StringItem("orange juice"), StringItem("t-shirt"), StringItem("random widget")]))
    ensures TopCategories([o])
            == [CategoryStat("Electronics", 25, "#6366F1"), CategoryStat("Other", 50, "#8B5CF6"),
                CategoryStat("Clothing", 25, "#00D4FF")]
  {
    var elems := o.items.elems;
    ClassifyPhoneCase(ItemText(elems[0]));
    ClassifyJuice(ItemText(elems[1]));
    ClassifyTShirt(ItemText(elems[2]));
    ClassifyWidget(ItemText(elems[3]));
    var oc := OrderCategories(o);
    assert |oc| == 4;
    assert oc[0] == Electronics && oc[1] == Other && oc[2] == Clothing && oc[3] == Other;
    BreakdownOfOneOrder(o);
  }
}
