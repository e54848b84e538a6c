/** The home page's language switcher (`handleIndexPage`): a fixed dictionary of hero
    texts, a dropdown of language links, and the persisted choice. */
module Language {
  import opened Wrappers
  import opened Storage

  /** Storage key of the language preference. */
  const LanguageKey: string := "language"

  /** Language applied when nothing usable is stored. */
  const DefaultLanguage: string := "pt"

  /** The four translated text slots: hero title, hero subtitle, call-to-action button
      and login button. */
  datatype Texts = Texts(title: string, subtitle: string, cta: string, login: string)

  /** The translation dictionary, keyed by language code. */
  const Dictionary: map<string, Texts> := map[
    "pt" := Texts(
      "Organize seus estudos em um só lugar.",
      "Nossa plataforma inteligente ajuda você a focar, aprender e alcançar seus objetivos acadêmicos com mais eficiência.",
      "Comece agora gratuitamente",
      "Login"),
    "en" := Texts(
      "Organize your studies in one place.",
      "Our smart platform helps you focus, learn, and achieve your academic goals more efficiently.",
      "Get started for free",
      "Login"),
    "es" := Texts(
      "Organice sus estudios en un solo lugar.",
      "Nuestra plataforma inteligente le ayuda a concentrarse, aprender y alcanzar sus objetivos académicos de forma más eficiente.",
      "Empiece ahora gratis",
      "Iniciar Sesión")
  ]

  /** `dictionary[lang]`: the entry for a code, absent for unknown codes and for a
      missing `data-lang` attribute. */
  function Lookup(lang: Option<string>): (texts: Option<Texts>)
    ensures texts.Some? <==> lang.Some? && lang.value in Dictionary
    ensures texts.Some? ==> texts.value == Dictionary[lang.value]
  {
    if lang.Some? && lang.value in Dictionary then Some(Dictionary[lang.value]) else None
  }

  /** `localStorage.getItem('language') || 'pt'`: a missing or empty stored value falls
      back to Portuguese; any other stored string is used as it is. */
  function SavedOrDefault(saved: Option<string>): (code: string)
    ensures code != ""
    ensures saved.None? ==> code == DefaultLanguage
    ensures saved.Some? && saved.value != "" ==> code == saved.value
    ensures saved == Some("") ==> code == DefaultLanguage
  {
    if saved.Some? && saved.value != "" then saved.value else DefaultLanguage
  }

  /** The dictionary knows exactly the three supported codes, and the default is one of them. */
  lemma DictionaryCodes()
    ensures Dictionary.Keys == {"pt", "en", "es"}
    ensures DefaultLanguage in Dictionary
  {
  }

  /** A code written by a translation is read back as that code on the next load. */
  lemma SavedCodeRoundTrip(code: string)
    requires code in Dictionary
    ensures SavedOrDefault(Some(code)) == code
    ensures Lookup(Some(SavedOrDefault(Some(code)))) == Some(Dictionary[code])
  {
  }

  /** What a click inside the options panel lands on: a language link (with its
      `data-lang` attribute, if any) or something else. */
  datatype OptionsTarget = Link(dataLang: Option<string>) | NotLink

  /** The language controller: the four text slots, the current language, whether the
      options panel carries the `show` class, and the store. */
  class LanguageController {
    var title: string
    var subtitle: string
    var cta: string
    var login: string
    var currentLang: string
    var show: bool
    const storage: LocalStorage
    /** Whether some translation has been applied since the page loaded. */
    ghost var translated: bool

    /** The four text slots as one value. */
    function Slots(): Texts
      reads this
    {
      Texts(title, subtitle, cta, login)
    }

    /** The current language is always a dictionary code, and once a translation has
        been applied the slots show that language's entry. */
    ghost predicate Valid()
      reads this
    {
      && currentLang in Dictionary
      && (translated ==> Slots() == Dictionary[currentLang])
    }

    /** Page load: start from the markup's texts with `currentLang = 'pt'` and the panel
        hidden, then apply the saved language (or the default). */
    constructor (storage: LocalStorage, markup: Texts)
      modifies storage
      ensures Valid()
      ensures this.storage == storage && !show
      ensures var code := SavedOrDefault(old(storage.GetItem(LanguageKey)));
        if code in Dictionary then
          && Slots() == Dictionary[code]
          && currentLang == code
          && storage.items == old(storage.items)[LanguageKey := code]
        else
          && Slots() == markup
          && currentLang == DefaultLanguage
          && storage.items == old(storage.items)
    {
      this.storage := storage;
      title, subtitle, cta, login := markup.title, markup.subtitle, markup.cta, markup.login;
      currentLang := DefaultLanguage;
      show := false;
      translated := false;
      new;
      var saved := storage.GetItem(LanguageKey);
      ApplyTranslation(Some(SavedOrDefault(saved)));
    }

    /** `applyTranslation(lang)`: a known code sets all four slots to its entry, becomes
        the current language and is persisted; anything else changes nothing. */
    method ApplyTranslation(lang: Option<string>)
      requires Valid()
      modifies this, storage
      ensures Valid()
      ensures show == old(show)
      ensures Lookup(lang).Some? ==>
        && Slots() == Dictionary[lang.value]
        && currentLang == lang.value
        && storage.items == old(storage.items)[LanguageKey := lang.value]
      ensures Lookup(lang).None? ==>
        && Slots() == old(Slots())
        && currentLang == old(currentLang)
        && storage.items == old(storage.items)
    {
      var texts := Lookup(lang);
      if texts.Some? {
        title := texts.value.title;
        subtitle := texts.value.subtitle;
        cta := texts.value.cta;
        login := texts.value.login;
        currentLang := lang.value;
        translated := true;
        storage.SetItem(LanguageKey, lang.value);
      }
    }

    /** A click on the language toggle opens or closes the panel. */
    method ToggleClick()
      requires Valid()
      modifies this
      ensures Valid()
      ensures show == !old(show)
      ensures Slots() == old(Slots()) && currentLang == old(currentLang)
      ensures translated == old(translated)
    {
      show := !show;
    }

    /** A click anywhere outside the dropdown container closes the panel. */
    method OutsideClick()
      requires Valid()
      modifies this
      ensures Valid()
      ensures !show
      ensures Slots() == old(Slots()) && currentLang == old(currentLang)
      ensures translated == old(translated)
    {
      if show {
        show := false;
      }
    }

    /** A click inside the options panel: on a link, apply its language and close the
        panel; on anything else, nothing happens. */
    method OptionsClick(target: OptionsTarget)
      requires Valid()
      modifies this, storage
      ensures Valid()
      ensures target.NotLink? ==>
        && show == old(show)
        && Slots() == old(Slots()) && currentLang == old(currentLang)
        && storage.items == old(storage.items)
      ensures target.Link? ==> !show
      ensures target.Link? && Lookup(target.dataLang).Some? ==>
        && Slots() == Dictionary[target.dataLang.value]
        && currentLang == target.dataLang.value
        && storage.items == old(storage.items)[LanguageKey := target.dataLang.value]
      ensures target.Link? && Lookup(target.dataLang).None? ==>
        && Slots() == old(Slots()) && currentLang == old(currentLang)
        && storage.items == old(storage.items)
    {
      if target.Link? {
        ApplyTranslation(target.dataLang);
        show := false;
      }
    }
  }
}
