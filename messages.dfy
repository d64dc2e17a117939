/** The "Error: " / "Warning: " tagging of lines sent to the user interface. */
module Messages {
  import opened Text

  /** fmt.Sprintf("Error: %s", msg) */
  function ErrorMessage(msg: string): (r: string)
    ensures |r| == |msg| + 7 && r[7..] == msg
  {
    "Error: " + msg
  }

  /** fmt.Sprintf("Warning: %s", msg) */
  function WarningMessage(msg: string): (r: string)
    ensures |r| == |msg| + 9 && r[9..] == msg
  {
    "Warning: " + msg
  }

  /** strings.HasPrefix(msg, ErrorMessage("")) */
  predicate IsErrorMessage(s: string)
  {
    HasPrefix(s, ErrorMessage(""))
  }

  /** strings.HasPrefix(msg, WarningMessage("")) */
  predicate IsWarningMessage(s: string)
  {
    HasPrefix(s, WarningMessage(""))
  }

  /** The recogniser accepts exactly the tagged strings, and the tag can be stripped again. */
  lemma IsErrorMessageIff(s: string)
    ensures IsErrorMessage(s) <==> exists m :: ErrorMessage(m) == s
    ensures IsErrorMessage(s) ==> ErrorMessage(s[7..]) == s
  {
    if IsErrorMessage(s) {
      assert ErrorMessage(s[7..]) == s;
    }
  }

  /** The recogniser accepts exactly the tagged strings, and the tag can be stripped again. */
  lemma IsWarningMessageIff(s: string)
    ensures IsWarningMessage(s) <==> exists m :: WarningMessage(m) == s
    ensures IsWarningMessage(s) ==> WarningMessage(s[9..]) == s
  {
    if IsWarningMessage(s) {
      assert WarningMessage(s[9..]) == s;
    }
  }

  /** Tagging and recognising round-trip, and each tag is recognised only by its own recogniser. */
  lemma TagsRecognised(m: string)
    ensures IsErrorMessage(ErrorMessage(m)) && !IsWarningMessage(ErrorMessage(m))
    ensures IsWarningMessage(WarningMessage(m)) && !IsErrorMessage(WarningMessage(m))
  {
    assert ErrorMessage(m)[0] == 'E';
    assert WarningMessage(m)[0] == 'W';
  }

  /** No string is tagged both ways: the two prefixes differ in their first character. */
  lemma NeverBothTags(s: string)
    ensures !(IsErrorMessage(s) && IsWarningMessage(s))
  {
    if IsErrorMessage(s) {
      assert s[0] == ErrorMessage("")[0] == 'E';
    }
  }
}
