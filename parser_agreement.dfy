/** How the two level parsers relate: the YAML builder's parser lowers its input and then
    matches, the other matches the input exactly. */
module ParserAgreement {
  import opened Ascii
  import opened Levels
  import MainLogging

  /** On strings without upper-case letters the two parsers give the same level. */
  lemma AgreeOnLowercase(s: string)
    requires !HasUpper(s)
    ensures LevelNamed(Lower(s)) == MainLogging.StringToLevel(s)
  {
  }

  /** Where they differ, the input has an upper-case letter and the exact parser fell back to Info. */
  lemma DisagreementNeedsUppercase(s: string)
    requires LevelNamed(Lower(s)) != MainLogging.StringToLevel(s)
    ensures HasUpper(s)
    ensures MainLogging.StringToLevel(s) == Info
  {
    if !HasUpper(s) {
      AgreeOnLowercase(s);
    }
    MainLogging.UppercaseIsInfo(s);
  }

  /** "WARN" is Warn to the YAML parser and Info to the exact one. */
  lemma UppercaseWarn()
    ensures LevelNamed(Lower("WARN")) == Warn
    ensures MainLogging.StringToLevel("WARN") == Info
  {
  }
}
