/** The avatar: the initial shown in the placeholder and the latched load error. */
module Avatar {
  import opened Common
  import opened Strings

  /** `getInitial(name)`: the first character of the trimmed name, upper-cased. */
  function GetInitial(name: Option<string>): (r: string)
    ensures |r| <= 1
    ensures r == [] <==> name.None? || AllWhitespace(name.value)
  {
    if name.None? || name.value == "" then ""
    else
      var trimmed := Trim(name.value);
      if trimmed == "" then "" else [ToUpperAscii(trimmed[0])]
  }

  /** The initial is the first non-whitespace character of the name, upper-cased. */
  lemma {:induction false} InitialIsFirstVisibleCharacter(s: string, k: nat)
    requires k < |s| && AllWhitespace(s[..k]) && !IsJsWhitespace(s[k])
    ensures GetInitial(Some(s)) == [ToUpperAscii(s[k])]
  {
    var t := s[k..];
    assert s == s[..k] + t;
    TrimStartSkipsWhitespace(s[..k], t);
    TrimIsBothEnds(s);
    TrimIsBothEnds(t);
    assert Trim(s) == Trim(t);
    TrimKeepsVisibleStart(t);
  }

  /** A string that starts with a visible character keeps it first when trimmed. */
  lemma TrimKeepsVisibleStart(t: string)
    requires t != [] && !IsJsWhitespace(t[0])
    ensures Trim(t) != [] && Trim(t)[0] == t[0]
  {
    TrimIsBothEnds(t);
    assert TrimStart(t) == t;
    var e := TrimEnd(t);
    assert e[0] == t[..|e|][0];
  }

  /** Whitespace around a name does not change its initial. */
  lemma InitialIgnoresSurroundingWhitespace(w1: string, s: string, w2: string)
    requires AllWhitespace(w1) && AllWhitespace(w2)
    ensures GetInitial(Some(w1 + s + w2)) == GetInitial(Some(s))
  {
    TrimSurrounded(w1, s, w2);
    if w1 + s + w2 == [] {
      assert s == [];
    }
  }

  /** The `isError` state of one mounted avatar. */
  class AvatarImage {
    var isError: bool

    constructor ()
      ensures !isError
    {
      isError := false;
    }

    /** The placeholder replaces the image when there is no URI or the image failed to load. */
    function ShowsPlaceholder(uri: Option<string>): (r: bool)
      reads this
      ensures r <==> !TruthyString(uri) || isError
    {
      uri.None? || uri.value == "" || isError
    }

    /** `onError`: the image failed to load. */
    method OnError()
      modifies this
      ensures isError
    {
      isError := true;
    }
  }

  /** Once the image has failed, the placeholder stays, whatever the URI. */
  lemma PlaceholderLatches(a: AvatarImage, uri: Option<string>)
    requires a.isError
    ensures a.ShowsPlaceholder(uri)
  {
  }
}
