/**
 * The UILanguage value object of the user aggregate: a closed set of
 * language codes and a smart constructor that admits only those.
 */
module UserValueObjects {
  import opened Wrappers

  type UILanguage = string

  // The three supported languages. Their declarations are not part of this
  // model; the values below are placeholders, and only their being three
  // distinct strings is relied on.
  const UILanguageEN: UILanguage := "en"
  const UILanguageRU: UILanguage := "ru"
  const UILanguageUZ: UILanguage := "uz"

  const InvalidLanguageMessage := "invalid language"

  datatype Error = Error(message: string)

  /** Go's pair of results (UILanguage, error); `err` is None for a nil error. */
  datatype LanguageResult = LanguageResult(language: UILanguage, err: Option<Error>)

  /** UILanguage.IsValid: the switch over the three constants. */
  predicate IsValid(l: UILanguage)
    ensures IsValid(l) ==> l != ""
  {
    l == UILanguageEN || l == UILanguageRU || l == UILanguageUZ
  }

  /** NewUILanguage: `l` itself when it is valid, otherwise "" and the "invalid language" error. */
  function NewUILanguage(l: string): (r: LanguageResult)
    ensures r.err == None <==> IsValid(l)
    ensures r.err == None ==> r.language == l
    ensures r.err != None ==> r.language == "" && r.err == Some(Error(InvalidLanguageMessage))
  {
    var language: UILanguage := l;
    if !IsValid(language) then LanguageResult("", Some(Error(InvalidLanguageMessage)))
    else LanguageResult(language, None)
  }

  /** Exactly three strings are valid, and they are the three constants. */
  lemma ValidLanguagesAreTheThreeConstants()
    ensures forall l :: IsValid(l) <==> l in {UILanguageEN, UILanguageRU, UILanguageUZ}
    ensures |{UILanguageEN, UILanguageRU, UILanguageUZ}| == 3
  {
  }

  /** Whatever NewUILanguage returns without an error is valid and is accepted again unchanged. */
  lemma NewUILanguageIdempotent(l: string)
    requires NewUILanguage(l).err == None
    ensures IsValid(NewUILanguage(l).language)
    ensures NewUILanguage(NewUILanguage(l).language) == NewUILanguage(l)
  {
  }

  /** The value returned beside the error is not itself a valid language. */
  lemma FailureValueIsInvalid(l: string)
    requires NewUILanguage(l).err != None
    ensures !IsValid(NewUILanguage(l).language)
  {
  }
}
