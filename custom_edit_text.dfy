/**
 * The three custom text fields of the login and signup forms. Each one checks
 * its trimmed text on every change and records the verdict in the widget's
 * `error` (and, for the name field, in `validatedName`).
 *
 * The widget state every field inherits from the host EditText is modelled
 * too: a change of text first resets an "error was changed" flag, then the
 * text-change listeners run in registration order (the field's own validator
 * first, since it is registered in the constructor), and at the end of the
 * change the host clears an error that no listener set during that change.
 */
module EditTexts {
  import opened Wrappers
  import opened KotlinText

  /** An error or message text: a literal, or a string resource named by its identifier. */
  datatype UiText = Literal(text: string) | StringResource(name: string)

  const NameErrorText: UiText := StringResource("name")
  const EmailErrorText: UiText := Literal("Email salah")
  const PasswordErrorText: UiText := Literal("Password tidak boleh kurang dari 8 karakter")
  const MinPasswordLength: nat := 8

  // ---------------------------------------------------------------------
  // The email pattern [a-zA-Z0-9._-]+@[a-z]+\.+[a-z]+ matched against the whole text

  predicate IsLocalChar(c: char) {
    ('a' <= c <= 'z') || ('A' <= c <= 'Z') || ('0' <= c <= '9') || c == '.' || c == '_' || c == '-'
  }

  predicate IsLower(c: char) {
    'a' <= c <= 'z'
  }

  /**
   * Reference reading of the pattern: `s` is a non-empty local part over
   * [a-zA-Z0-9._-] ending before index i, '@' at i, a lowercase label on
   * (i, j), a run of dots on [j, k) and a lowercase label on [k, |s|).
   */
  ghost predicate EmailSplit(s: string, i: int, j: int, k: int) {
    && 0 < i && i + 1 < j && j < k && k < |s|
    && (forall p :: 0 <= p < i ==> IsLocalChar(s[p]))
    && s[i] == '@'
    && (forall p :: i < p < j ==> IsLower(s[p]))
    && (forall p :: j <= p < k ==> s[p] == '.')
    && (forall p :: k <= p < |s| ==> IsLower(s[p]))
  }

  ghost predicate EmailForm(s: string) {
    exists i, j, k :: EmailSplit(s, i, j, k)
  }

  /** The states of a hand-written recogniser for the pattern. */
  datatype EmailState = Start | Local | AtSign | FirstLabel | Dots | SecondLabel | Reject

  function Step(q: EmailState, c: char): EmailState {
    match q
    case Start => if IsLocalChar(c) then Local else Reject
    case Local => if IsLocalChar(c) then Local else if c == '@' then AtSign else Reject
    case AtSign => if IsLower(c) then FirstLabel else Reject
    case FirstLabel => if IsLower(c) then FirstLabel else if c == '.' then Dots else Reject
    case Dots => if c == '.' then Dots else if IsLower(c) then SecondLabel else Reject
    case SecondLabel => if IsLower(c) then SecondLabel else Reject
    case Reject => Reject
  }

  /** The state reached from `q` after reading `s[p..]`. */
  function RunFrom(q: EmailState, s: string, p: nat): EmailState
    requires p <= |s|
    decreases |s| - p
  {
    if p == |s| then q else RunFrom(Step(q, s[p]), s, p + 1)
  }

  /** `emailRegex.matches(s)`: the whole text is accepted. */
  predicate EmailMatches(s: string) {
    RunFrom(Start, s, 0) == SecondLabel
  }

  lemma {:induction false} RejectIsFinal(s: string, p: nat)
    requires p <= |s|
    ensures RunFrom(Reject, s, p) == Reject
    decreases |s| - p
  {
    if p < |s| { RejectIsFinal(s, p + 1); }
  }

  // Completeness: each segment of a split drives the recogniser as expected.

  lemma {:induction false} SecondLabelAccepts(s: string, p: nat)
    requires p <= |s| && forall t :: p <= t < |s| ==> IsLower(s[t])
    ensures RunFrom(SecondLabel, s, p) == SecondLabel
    decreases |s| - p
  {
    if p < |s| { SecondLabelAccepts(s, p + 1); }
  }

  lemma {:induction false} DotsAccepts(s: string, p: nat, k: nat)
    requires p <= k < |s|
    requires forall t :: p <= t < k ==> s[t] == '.'
    requires forall t :: k <= t < |s| ==> IsLower(s[t])
    ensures RunFrom(Dots, s, p) == SecondLabel
    decreases k - p
  {
    if p < k { DotsAccepts(s, p + 1, k); } else { SecondLabelAccepts(s, p + 1); }
  }

  lemma {:induction false} FirstLabelAccepts(s: string, p: nat, j: nat, k: nat)
    requires p <= j < k < |s|
    requires forall t :: p <= t < j ==> IsLower(s[t])
    requires forall t :: j <= t < k ==> s[t] == '.'
    requires forall t :: k <= t < |s| ==> IsLower(s[t])
    ensures RunFrom(FirstLabel, s, p) == SecondLabel
    decreases j - p
  {
    if p < j { FirstLabelAccepts(s, p + 1, j, k); } else { DotsAccepts(s, p + 1, k); }
  }

  lemma {:induction false} LocalAccepts(s: string, p: nat, i: nat, j: nat, k: nat)
    requires 1 <= p <= i && EmailSplit(s, i, j, k)
    ensures RunFrom(Local, s, p) == SecondLabel
    decreases i - p
  {
    if p < i {
      LocalAccepts(s, p + 1, i, j, k);
    } else {
      FirstLabelAccepts(s, i + 2, j, k);
      assert RunFrom(AtSign, s, i + 1) == RunFrom(FirstLabel, s, i + 2);
    }
  }

  // Soundness: an accepting run yields the split points.

  lemma {:induction false} SecondLabelSound(s: string, p: nat)
    requires p <= |s| && RunFrom(SecondLabel, s, p) == SecondLabel
    ensures forall t :: p <= t < |s| ==> IsLower(s[t])
    decreases |s| - p
  {
    if p < |s| {
      if !IsLower(s[p]) { RejectIsFinal(s, p + 1); }
      SecondLabelSound(s, p + 1);
    }
  }

  lemma {:induction false} DotsSound(s: string, p: nat) returns (k: nat)
    requires p <= |s| && RunFrom(Dots, s, p) == SecondLabel
    ensures p <= k < |s|
    ensures forall t :: p <= t < k ==> s[t] == '.'
    ensures forall t :: k <= t < |s| ==> IsLower(s[t])
    decreases |s| - p
  {
    if p == |s| { assert false; }
    if s[p] == '.' {
      k := DotsSound(s, p + 1);
    } else if IsLower(s[p]) {
      k := p;
      SecondLabelSound(s, p + 1);
    } else {
      RejectIsFinal(s, p + 1);
      assert false;
    }
  }

  lemma {:induction false} FirstLabelSound(s: string, p: nat) returns (j: nat, k: nat)
    requires p <= |s| && RunFrom(FirstLabel, s, p) == SecondLabel
    ensures p <= j < k < |s|
    ensures forall t :: p <= t < j ==> IsLower(s[t])
    ensures forall t :: j <= t < k ==> s[t] == '.'
    ensures forall t :: k <= t < |s| ==> IsLower(s[t])
    decreases |s| - p
  {
    if p == |s| { assert false; }
    if IsLower(s[p]) {
      j, k := FirstLabelSound(s, p + 1);
    } else if s[p] == '.' {
      j := p;
      k := DotsSound(s, p + 1);
    } else {
      RejectIsFinal(s, p + 1);
      assert false;
    }
  }

  lemma {:induction false} LocalSound(s: string, p: nat) returns (i: nat, j: nat, k: nat)
    requires 1 <= p <= |s| && RunFrom(Local, s, p) == SecondLabel
    requires forall t :: 0 <= t < p ==> IsLocalChar(s[t])
    ensures EmailSplit(s, i, j, k)
    decreases |s| - p
  {
    if p == |s| { assert false; }
    if IsLocalChar(s[p]) {
      i, j, k := LocalSound(s, p + 1);
    } else if s[p] == '@' {
      i := p;
      if p + 1 == |s| { assert false; }
      if !IsLower(s[p + 1]) {
        RejectIsFinal(s, p + 2);
        assert false;
      }
      j, k := FirstLabelSound(s, p + 2);
    } else {
      RejectIsFinal(s, p + 1);
      assert false;
    }
  }

  /** The recogniser accepts exactly the texts of the pattern's form. */
  lemma EmailMatchesIff(s: string)
    ensures EmailMatches(s) <==> EmailForm(s)
  {
    if EmailMatches(s) {
      if s == [] { assert false; }
      if !IsLocalChar(s[0]) {
        RejectIsFinal(s, 1);
        assert false;
      }
      var i, j, k := LocalSound(s, 1);
    }
    if EmailForm(s) {
      var i, j, k :| EmailSplit(s, i, j, k);
      LocalAccepts(s, 1, i, j, k);
    }
  }

  /** A split puts the only '@' of the text at its index i. */
  lemma SplitAtIsUnique(s: string, i: int, j: int, k: int, a: int)
    requires EmailSplit(s, i, j, k) && 0 <= a < |s| && s[a] == '@'
    ensures a == i
  {
  }

  /** An accepted text holds exactly one '@'. */
  lemma AcceptedEmailHasOneAt(s: string)
    requires EmailMatches(s)
    ensures multiset(s)['@'] == 1
  {
    EmailMatchesIff(s);
    var i, j, k :| EmailSplit(s, i, j, k);
    assert s == s[..i] + [s[i]] + s[i + 1..];
    assert '@' !in s[..i];
    assert '@' !in s[i + 1..];
  }

  /** After the '@' only lowercase letters and dots are accepted: no upper case, no digits. */
  lemma NonLowerAfterAtRejected(s: string, a: nat, p: nat)
    requires a < p < |s| && s[a] == '@'
    requires !IsLower(s[p]) && s[p] != '.'
    ensures !EmailMatches(s)
  {
    EmailMatchesIff(s);
    if EmailForm(s) {
      var i, j, k :| EmailSplit(s, i, j, k);
      SplitAtIsUnique(s, i, j, k, a);
    }
  }

  /** A domain with a second run of dots (three labels or more) is rejected. */
  lemma SecondDotRunRejected(s: string, a: nat, p: nat, q: nat, r: nat)
    requires a < p < q < r < |s| && s[a] == '@'
    requires s[p] == '.' && IsLower(s[q]) && s[r] == '.'
    ensures !EmailMatches(s)
  {
    EmailMatchesIff(s);
    if EmailForm(s) {
      var i, j, k :| EmailSplit(s, i, j, k);
      SplitAtIsUnique(s, i, j, k, a);
    }
  }

  lemma AcceptedBySplit(s: string, i: nat, j: nat, k: nat)
    requires EmailSplit(s, i, j, k)
    ensures EmailMatches(s)
  {
    EmailMatchesIff(s);
  }

  /** A plain address is accepted. */
  lemma PlainEmailAccepted()
    ensures EmailMatches("user@mail.com")
  {
    AcceptedBySplit("user@mail.com", 4, 9, 10);
  }

  /** Dots, '_' and '-' in the local part and a run of several dots in the domain are accepted. */
  lemma DotRunEmailAccepted()
    ensures EmailMatches("a.b_c-9@x...y")
  {
    AcceptedBySplit("a.b_c-9@x...y", 7, 9, 12);
  }

  /** Examples the pattern rejects: three domain labels, upper case and a digit after the '@'. */
  lemma RejectedEmailExamples()
    ensures !EmailMatches("user@mail.co.id")
    ensures !EmailMatches("user@mAil.com")
    ensures !EmailMatches("user@mail2.com")
  {
    SecondDotRunRejected("user@mail.co.id", 4, 9, 10, 12);
    NonLowerAfterAtRejected("user@mAil.com", 4, 6);
    NonLowerAfterAtRejected("user@mail2.com", 4, 9);
  }

  // ---------------------------------------------------------------------
  // The verdicts, on the trimmed text

  predicate NameBlank(text: string) {
    Trim(text) == []
  }

  /** The email field's error after a change to `text`. */
  function EmailError(text: string): (e: Option<UiText>)
    ensures e == None <==> EmailForm(Trim(text))
    ensures e != None ==> e == Some(EmailErrorText)
  {
    EmailMatchesIff(Trim(text));
    if EmailMatches(Trim(text)) then None else Some(EmailErrorText)
  }

  /** The password field's error after a change to `text`. */
  function PasswordError(text: string): (e: Option<UiText>)
    ensures e == None <==> Utf16Length(Trim(text)) >= MinPasswordLength
    ensures e != None ==> e == Some(PasswordErrorText)
  {
    if Utf16Length(Trim(text)) < MinPasswordLength then Some(PasswordErrorText) else None
  }

  /**
   * The length that counts is the UTF-16 one: four characters above U+FFFF
   * make eight units and pass, while seven ordinary characters do not.
   */
  lemma PasswordLengthInUtf16Units()
    ensures PasswordError("\U{1F600}\U{1F600}\U{1F600}\U{1F600}") == None
    ensures PasswordError("abcdefg") == Some(PasswordErrorText)
    ensures PasswordError("abcdefgh") == None
  {
    var four := "\U{1F600}\U{1F600}\U{1F600}\U{1F600}";
    assert Trim(four) == four;
    assert Utf16Length(four) == 8 by {
      assert four[..3] == "\U{1F600}\U{1F600}\U{1F600}";
      assert four[..3][..2] == "\U{1F600}\U{1F600}";
      assert four[..3][..2][..1] == "\U{1F600}";
    }
    assert Trim("abcdefg") == "abcdefg";
    assert Trim("abcdefgh") == "abcdefgh";
  }

  /** The name field's error after a full change to `text` (its listener and the host's clean-up). */
  function NameError(text: string): (e: Option<UiText>)
    ensures e == None <==> !NameBlank(text)
    ensures e != None ==> e == Some(NameErrorText)
  {
    if NameBlank(text) then Some(NameErrorText) else None
  }

  /** Whitespace around the text changes none of the three verdicts. */
  lemma VerdictsIgnorePadding(pre: string, text: string, post: string)
    requires AllWhitespace(pre) && AllWhitespace(post)
    ensures NameBlank(pre + text + post) == NameBlank(text)
    ensures EmailError(pre + text + post) == EmailError(text)
    ensures PasswordError(pre + text + post) == PasswordError(text)
  {
    TrimIgnoresPadding(pre, text, post);
    EmailErrorDependsOnTrim(pre + text + post, text);
    PasswordErrorDependsOnTrim(pre + text + post, text);
  }

  /** Texts with the same trimmed form get the same email verdict. */
  lemma EmailErrorDependsOnTrim(a: string, b: string)
    requires Trim(a) == Trim(b)
    ensures EmailError(a) == EmailError(b)
  {
  }

  /** Texts with the same trimmed form get the same password verdict. */
  lemma PasswordErrorDependsOnTrim(a: string, b: string)
    requires Trim(a) == Trim(b)
    ensures PasswordError(a) == PasswordError(b)
  {
  }

  /** What the host EditText does with an error at the end of a change. */
  function ErrorAfterChange(error: Option<UiText>, errorWasChanged: bool): (e: Option<UiText>)
    ensures errorWasChanged ==> e == error
    ensures !errorWasChanged ==> e == None
  {
    if error.Some? && !errorWasChanged then None else error
  }

  // ---------------------------------------------------------------------
  // The widgets

  class NameEditText {
    var text: string
    var error: Option<UiText>
    var errorWasChanged: bool
    var validatedName: bool

    constructor ()
      ensures text == [] && error == None && !errorWasChanged && !validatedName
    {
      text, error, errorWasChanged, validatedName := [], None, false, false;
    }

    /** Host: the text is replaced and the change starts with the flag reset. */
    method BeginTextChange(newText: string)
      modifies this
      ensures text == newText && !errorWasChanged
      ensures error == old(error) && validatedName == old(validatedName)
    {
      text, errorWasChanged := newText, false;
    }

    /** The field's own listener: a blank trimmed name sets the error; otherwise the name counts as validated. */
    method OnTextChanged()
      modifies this
      ensures text == old(text)
      ensures validatedName == !NameBlank(text)
      ensures NameBlank(text) ==> error == Some(NameErrorText) && errorWasChanged
      ensures !NameBlank(text) ==> error == old(error) && errorWasChanged == old(errorWasChanged)
    {
      var name := Trim(text);
      if name == [] {
        validatedName := false;
        error, errorWasChanged := Some(NameErrorText), true;
      } else {
        validatedName := true;
      }
    }

    /** Host: an error no listener set during this change is taken down. */
    method EndTextChange()
      modifies this
      ensures text == old(text) && validatedName == old(validatedName)
      ensures error == ErrorAfterChange(old(error), old(errorWasChanged))
      ensures errorWasChanged == (old(errorWasChanged) || old(error).Some?)
    {
      if error.Some? && !errorWasChanged {
        error, errorWasChanged := None, true;
      }
    }

    /** A whole change of text with no other listener: the verdicts depend on the new text only. */
    method ChangeText(newText: string)
      modifies this
      ensures text == newText
      ensures error == NameError(newText) && validatedName == !NameBlank(newText)
    {
      BeginTextChange(newText);
      OnTextChanged();
      EndTextChange();
    }
  }

  class EmailEditText {
    var text: string
    var error: Option<UiText>
    var errorWasChanged: bool

    constructor ()
      ensures text == [] && error == None && !errorWasChanged
    {
      text, error, errorWasChanged := [], None, false;
    }

    method BeginTextChange(newText: string)
      modifies this
      ensures text == newText && !errorWasChanged && error == old(error)
    {
      text, errorWasChanged := newText, false;
    }

    /** The field's own listener: the error is set exactly when the trimmed text does not match, cleared otherwise. */
    method OnTextChanged()
      modifies this
      ensures text == old(text) && errorWasChanged
      ensures error == EmailError(text)
    {
      var trimmed := Trim(text);
      if !EmailMatches(trimmed) {
        error := Some(EmailErrorText);
      } else {
        error := None;
      }
      errorWasChanged := true;
    }

    method EndTextChange()
      modifies this
      ensures text == old(text)
      ensures error == ErrorAfterChange(old(error), old(errorWasChanged))
      ensures errorWasChanged == (old(errorWasChanged) || old(error).Some?)
    {
      if error.Some? && !errorWasChanged {
        error, errorWasChanged := None, true;
      }
    }
  }

  class PasswordEditText {
    var text: string
    var error: Option<UiText>
    var errorWasChanged: bool

    constructor ()
      ensures text == [] && error == None && !errorWasChanged
    {
      text, error, errorWasChanged := [], None, false;
    }

    method BeginTextChange(newText: string)
      modifies this
      ensures text == newText && !errorWasChanged && error == old(error)
    {
      text, errorWasChanged := newText, false;
    }

    /** The field's own listener: the error is set exactly when the trimmed text is shorter than 8, cleared otherwise. */
    method OnTextChanged()
      modifies this
      ensures text == old(text) && errorWasChanged
      ensures error == PasswordError(text)
    {
      var trimmed := Trim(text);
      if Utf16Length(trimmed) < MinPasswordLength {
        error := Some(PasswordErrorText);
      } else {
        error := None;
      }
      errorWasChanged := true;
    }

    method EndTextChange()
      modifies this
      ensures text == old(text)
      ensures error == ErrorAfterChange(old(error), old(errorWasChanged))
      ensures errorWasChanged == (old(errorWasChanged) || old(error).Some?)
    {
      if error.Some? && !errorWasChanged {
        error, errorWasChanged := None, true;
      }
    }
  }
}
