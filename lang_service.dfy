/** src/services/LangService.js: the 'lang' slot of localStorage, defaulted to
    English the first time it is read empty. */
module LangService {
  import opened Js
  import opened Api

  const LangEn := "en"
  const LangUz := "uz"
  const LangRu := "ru"
  const LangDefault := LangEn

  /** `getLang` on the slot's content: the language returned and the slot after. */
  function LangRead(slot: Option<string>): (r: (string, Option<string>))
    // the slot ends holding exactly what was returned, and that is never empty
    ensures r.1 == Some(r.0) && r.0 != []
    // a stored non-empty value is returned as it is, unvalidated, and not rewritten
    ensures slot.Some? && slot.value != [] ==> r == (slot.value, slot)
    // an unset or empty slot gets the default written
    ensures slot.None? || slot.value == [] ==> r.0 == LangDefault
  {
    if slot.None? || slot.value == [] then (LangDefault, Some(LangDefault)) else (slot.value, slot)
  }

  /** Reading right after `setLangToX` gives back X. */
  lemma ReadAfterSet(code: string)
    requires code in {LangEn, LangUz, LangRu}
    ensures LangRead(Some(code)) == (code, Some(code))
  {
  }

  /** A second read returns the same value and writes nothing. */
  lemma ReadIsIdempotent(slot: Option<string>)
    ensures LangRead(LangRead(slot).1) == LangRead(slot)
  {
  }

  method GetLang(c: Client) returns (lang: string)
    modifies c`lang
    ensures (lang, c.lang) == LangRead(old(c.lang))
  {
    var stored := c.lang;
    if stored.None? || stored.value == [] {
      lang := LangDefault;
      c.lang := Some(lang);
    } else {
      lang := stored.value;
    }
  }

  method SetLangToEn(c: Client) returns (lang: string)
    modifies c`lang
    ensures lang == LangEn && c.lang == Some(LangEn)
  {
    c.lang := Some(LangEn);
    return LangEn;
  }

  method SetLangToUz(c: Client) returns (lang: string)
    modifies c`lang
    ensures lang == LangUz && c.lang == Some(LangUz)
  {
    c.lang := Some(LangUz);
    return LangUz;
  }

  method SetLangToRu(c: Client) returns (lang: string)
    modifies c`lang
    ensures lang == LangRu && c.lang == Some(LangRu)
  {
    c.lang := Some(LangRu);
    return LangRu;
  }
}
