/**
 * The locale overlay `TranslationService.mapEntity`
 * (libs/translation/src/translation.service.ts): the translations loaded with
 * an entity that are in the requested locale and belong to the entity's class
 * are folded, in list order, into an attribute-to-text map, which is then
 * assigned over the entity's own attributes.
 */
module Translation {

  /** A row of the translation table. */
  datatype Translation = Translation(entityName: string, entityAttribute: string, text: string, locale: string)

  /**
   * A translatable entity: the name of its class, its attributes by name, and
   * the translations loaded with it.
   */
  datatype Entity = Entity(typeName: string, attributes: map<string, string>, translations: seq<Translation>)

  /** The filter of `mapEntity`: same locale and same entity class. */
  predicate Applies(t: Translation, locale: string, typeName: string)
  {
    t.locale == locale && t.entityName == typeName
  }

  /** `t` passes the filter and rewrites attribute `a`. */
  predicate Targets(t: Translation, locale: string, typeName: string, a: string)
  {
    Applies(t, locale, typeName) && t.entityAttribute == a
  }

  /**
   * The reduce of `mapEntity`: the translations that pass the filter, folded
   * from first to last into attribute -> text, each overwriting the one before.
   */
  function Overlay(ts: seq<Translation>, locale: string, typeName: string): map<string, string>
  {
    if ts == [] then map[]
    else
      var acc := Overlay(ts[..|ts| - 1], locale, typeName);
      var t := ts[|ts| - 1];
      if Applies(t, locale, typeName) then acc[t.entityAttribute := t.text] else acc
  }

  /**
   * The overlay rewrites exactly the attributes some applicable translation
   * targets, and each to the text of the LAST translation that targets it.
   */
  lemma {:induction false} OverlayLastWins(ts: seq<Translation>, locale: string, typeName: string, a: string)
    ensures a in Overlay(ts, locale, typeName) <==> exists i :: 0 <= i < |ts| && Targets(ts[i], locale, typeName, a)
    ensures a in Overlay(ts, locale, typeName) ==>
              exists i :: && 0 <= i < |ts| && Targets(ts[i], locale, typeName, a)
                          && Overlay(ts, locale, typeName)[a] == ts[i].text
                          && forall j :: i < j < |ts| ==> !Targets(ts[j], locale, typeName, a)
  {
    if ts != [] {
      var n := |ts| - 1;
      var front := ts[..n];
      OverlayLastWins(front, locale, typeName, a);
      assert forall i :: 0 <= i < n ==> ts[i] == front[i];
      if Targets(ts[n], locale, typeName, a) {
        assert Overlay(ts, locale, typeName)[a] == ts[n].text;
      } else {
        assert a in Overlay(ts, locale, typeName) <==> a in Overlay(front, locale, typeName);
        assert a in Overlay(ts, locale, typeName) ==> Overlay(ts, locale, typeName)[a] == Overlay(front, locale, typeName)[a];
      }
    }
  }

  /** A translation that does not pass the filter, wherever it stands, does not change the overlay. */
  lemma {:induction false} NonMatchingIgnored(before: seq<Translation>, t: Translation, after: seq<Translation>, locale: string, typeName: string)
    requires !Applies(t, locale, typeName)
    ensures Overlay(before + [t] + after, locale, typeName) == Overlay(before + after, locale, typeName)
  {
    if after == [] {
      assert (before + [t] + after)[..|before|] == before;
      assert before + after == before;
    } else {
      var n := |after| - 1;
      NonMatchingIgnored(before, t, after[..n], locale, typeName);
      assert (before + [t] + after)[..|before| + 1 + n] == before + [t] + after[..n];
      assert (before + after)[..|before| + n] == before + after[..n];
    }
  }

  /** What `mapEntity` returns: the entity with the overlay assigned over its attributes. */
  function Localized(entity: Entity, locale: string): Entity
  {
    entity.(attributes := entity.attributes + Overlay(entity.translations, locale, entity.typeName))
  }

  /**
   * `mapEntity`: an entity without translations comes back as it is; otherwise
   * the filter and the reduce run over the translations, with the accumulator
   * local to the loop, and the result is assigned over the attributes.
   */
  method MapEntity(entity: Entity, locale: string) returns (r: Entity)
    ensures r == Localized(entity, locale)
  {
    if |entity.translations| == 0 {
      assert Overlay(entity.translations, locale, entity.typeName) == map[];
      assert entity.attributes + map[] == entity.attributes;
      return entity;
    }
    var acc: map<string, string> := map[];
    var i := 0;
    while i < |entity.translations|
      invariant 0 <= i <= |entity.translations|
      invariant acc == Overlay(entity.translations[..i], locale, entity.typeName)
    {
      var item := entity.translations[i];
      if item.locale == locale && item.entityName == entity.typeName {
        acc := acc[item.entityAttribute := item.text];
      }
      assert entity.translations[..i + 1][..i] == entity.translations[..i];
      i := i + 1;
    }
    assert entity.translations[..i] == entity.translations;
    r := entity.(attributes := entity.attributes + acc);
  }

  /** An entity with no translations is returned unchanged. */
  lemma NoTranslationsUnchanged(entity: Entity, locale: string)
    requires entity.translations == []
    ensures Localized(entity, locale) == entity
  {
    assert entity.attributes + map[] == entity.attributes;
  }

  /**
   * Attribute by attribute: no attribute is removed; one that no applicable
   * translation targets keeps its value; one that is targeted takes the text of
   * the last translation that targets it. The class and the translations are
   * left as they were.
   */
  lemma LocalizedAttribute(entity: Entity, locale: string, a: string)
    ensures var r := Localized(entity, locale);
            && r.typeName == entity.typeName && r.translations == entity.translations
            && (a in entity.attributes ==> a in r.attributes)
            && ((forall i :: 0 <= i < |entity.translations| ==> !Targets(entity.translations[i], locale, entity.typeName, a)) ==>
                  (a in r.attributes <==> a in entity.attributes) && (a in entity.attributes ==> r.attributes[a] == entity.attributes[a]))
            && (forall i :: 0 <= i < |entity.translations| && Targets(entity.translations[i], locale, entity.typeName, a)
                          && (forall j :: i < j < |entity.translations| ==> !Targets(entity.translations[j], locale, entity.typeName, a))
                        ==> a in r.attributes && r.attributes[a] == entity.translations[i].text)
  {
    OverlayLastWins(entity.translations, locale, entity.typeName, a);
  }

  /** Localizing twice into the same locale gives what localizing once gives. */
  lemma LocalizedIdempotent(entity: Entity, locale: string)
    ensures Localized(Localized(entity, locale), locale) == Localized(entity, locale)
  {
    var o := Overlay(entity.translations, locale, entity.typeName);
    assert (entity.attributes + o) + o == entity.attributes + o;
  }

  /** The Event attributes the example translates. */
  const NAME: string := "name"
  const SHORT_DESCRIPTION: string := "shortDescription"
  const LONG_DESCRIPTION: string := "longDescription"

  /** An event carrying English and Portuguese translations of its three texts. */
  function BilingualEvent(attributes: map<string, string>): Entity
  {
    Entity("Event", attributes, [
      Translation("Event", NAME, "English Name", "en_US"),
      Translation("Event", SHORT_DESCRIPTION, "English ShortDescription", "en_US"),
      Translation("Event", LONG_DESCRIPTION, "English LongDescription", "en_US"),
      Translation("Event", NAME, "Portugese Name", "pt_BR"),
      Translation("Event", SHORT_DESCRIPTION, "Portugese ShortDescription", "pt_BR"),
      Translation("Event", LONG_DESCRIPTION, "Portugese LongDescription", "pt_BR")])
  }

  /** With en_US the event shows its English texts. */
  lemma EnglishEventExample(attributes: map<string, string>)
    ensures var en := Localized(BilingualEvent(attributes), "en_US").attributes;
            && NAME in en && en[NAME] == "English Name"
            && SHORT_DESCRIPTION in en && en[SHORT_DESCRIPTION] == "English ShortDescription"
            && LONG_DESCRIPTION in en && en[LONG_DESCRIPTION] == "English LongDescription"
  {
    var e := BilingualEvent(attributes);
    var ts := e.translations;
    LocalizedAttribute(e, "en_US", NAME);
    assert Targets(ts[0], "en_US", "Event", NAME);
    assert forall j :: 0 < j < |ts| ==> !Targets(ts[j], "en_US", "Event", NAME);
    LocalizedAttribute(e, "en_US", SHORT_DESCRIPTION);
    assert Targets(ts[1], "en_US", "Event", SHORT_DESCRIPTION);
    assert forall j :: 1 < j < |ts| ==> !Targets(ts[j], "en_US", "Event", SHORT_DESCRIPTION);
    LocalizedAttribute(e, "en_US", LONG_DESCRIPTION);
    assert Targets(ts[2], "en_US", "Event", LONG_DESCRIPTION);
    assert forall j :: 2 < j < |ts| ==> !Targets(ts[j], "en_US", "Event", LONG_DESCRIPTION);
  }

  /** With pt_BR the same event shows its Portuguese texts. */
  lemma PortugueseEventExample(attributes: map<string, string>)
    ensures var pt := Localized(BilingualEvent(attributes), "pt_BR").attributes;
            && NAME in pt && pt[NAME] == "Portugese Name"
            && SHORT_DESCRIPTION in pt && pt[SHORT_DESCRIPTION] == "Portugese ShortDescription"
            && LONG_DESCRIPTION in pt && pt[LONG_DESCRIPTION] == "Portugese LongDescription"
  {
    var e := BilingualEvent(attributes);
    var ts := e.translations;
    LocalizedAttribute(e, "pt_BR", NAME);
    assert Targets(ts[3], "pt_BR", "Event", NAME);
    LocalizedAttribute(e, "pt_BR", SHORT_DESCRIPTION);
    assert Targets(ts[4], "pt_BR", "Event", SHORT_DESCRIPTION);
    LocalizedAttribute(e, "pt_BR", LONG_DESCRIPTION);
    assert Targets(ts[5], "pt_BR", "Event", LONG_DESCRIPTION);
  }
}
