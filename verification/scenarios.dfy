/** Worked scenarios from the editor's documented behaviour, stated over
    arbitrary builders. */
module Scenarios {
  import opened Outcome
  import opened Sections
  import opened Markup
  import opened Registry
  import opened Document
  import opened Serialize

  /** Starting from an empty list, `add(hero)` then `add(footer, 0)` gives the
      order footer, hero, and the JSON export lists them in that order. */
  lemma AddThenExportOrder(b: Builder, hero: SectionOptions, footer: SectionOptions)
    requires b.sections == []
    requires hero.data.None? && footer.data.None?
    ensures var b2 := Add(Add(b, hero, None), footer, Some(0));
      && |b2.sections| == 2
      && b2.sections[0].name == footer.name && b2.sections[1].name == hero.name
      && ToJSON(b2).Ok?
      && ToJSON(b2).value.doc.sections == [SavedSection(footer.name, map[]), SavedSection(hero.name, map[])]
  {
    var b1 := Add(b, hero, None);
    var b2 := Add(b1, footer, Some(0));
    assert |b1.sections| == 1;
    assert b2.sections[1] == b1.sections[0];
    assert TransformData(map[]).Ok?;
    assert TransformData(map[]).value == map[];
  }

  /** `mix({a: 1})` then `mix({b: 2})` holds both keys; `mix({a: 1})` then
      `mix({a: 2})` keeps the later value. */
  lemma MixExamples()
    ensures MergeObject(MergeObject(map[], map["a" := Leaf("1")]), map["b" := Leaf("2")])
      == map["a" := Leaf("1"), "b" := Leaf("2")]
    ensures MergeObject(MergeObject(map[], map["a" := Leaf("1")]), map["a" := Leaf("2")])
      == map["a" := Leaf("2")]
  {
    var ab := MergeObject(MergeObject(map[], map["a" := Leaf("1")]), map["b" := Leaf("2")]);
    assert ab.Keys == {"a", "b"};
    var aa := MergeObject(MergeObject(map[], map["a" := Leaf("1")]), map["a" := Leaf("2")]);
    assert aa.Keys == {"a"};
  }

  /** Without full-page scroll the preview gets neither the scroll library nor
      its activation script; a disabled cookie policy gives no notice. */
  lemma PreviewGating(s: Settings, origin: string)
    requires s.fullPageScroll != "yes"
    requires !s.cookiesPolicy.enabled
    ensures GetScrollSetup(s, origin) == ScrollSetup("", "")
    ensures CookiesPreview(s) == ""
  {
  }
}
