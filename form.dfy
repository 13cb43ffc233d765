/** The connection form's pure rules: how the connection string is displayed
    with the password masked, what a submit does, and when the input and the
    submit button are disabled and what the button says. */
module ConnectionForm {
  import opened Base
  import opened Text

  /** The key the mask looks for, matched regardless of case. */
  const PasswordKey := "Password="
  const KeyLength := |PasswordKey|
  const Mask := "******"

  /** The regular expression `/(Password=)([^;]+)/i` matches at `i`: the key,
      in any case, followed by at least one character other than `;`. */
  predicate KeyAt(s: string, i: int)
  {
    0 <= i && i + KeyLength < |s| && SameIgnoringCase(s[i..i + KeyLength], PasswordKey) && s[i + KeyLength] != ';'
  }

  /** The end of the run of non-`;` characters starting at `k`: the first `;`
      at or after `k`, or the end of the string. */
  function ValueEnd(s: string, k: nat): (r: nat)
    requires k <= |s|
    ensures k <= r <= |s|
    ensures forall j :: k <= j < r ==> s[j] != ';'
    ensures r < |s| ==> s[r] == ';'
    decreases |s| - k
  {
    if k == |s| || s[k] == ';' then k else ValueEnd(s, k + 1)
  }

  /** The leftmost match at or after `k`, as the regular expression engine
      finds it. */
  function FirstKey(s: string, k: nat): (r: Option<nat>)
    ensures r.Some? ==> k <= r.value && KeyAt(s, r.value)
    ensures r.Some? ==> forall j :: k <= j < r.value ==> !KeyAt(s, j)
    ensures r.None? ==> forall j :: k <= j ==> !KeyAt(s, j)
    decreases |s| - k
  {
    if k + KeyLength >= |s| then None
    else if KeyAt(s, k) then Some(k)
    else FirstKey(s, k + 1)
  }

  /** `i` is where the regular expression matches first. */
  predicate IsFirstKey(s: string, i: int)
  {
    KeyAt(s, i) && forall j :: 0 <= j < i ==> !KeyAt(s, j)
  }

  /** `connectionString.replace(regex, '$1******')`; MaskPasswordSpec says
      what it computes. */
  function MaskPassword(s: string): string
  {
    match FirstKey(s, 0)
    case None => s
    case Some(i) => s[..i + KeyLength] + Mask + s[ValueEnd(s, i + KeyLength)..]
  }

  /** `getDisplayConnectionString()`. */
  function DisplayConnectionString(connectionString: string, isPasswordVisible: bool): (r: string)
    ensures isPasswordVisible ==> r == connectionString
    ensures !isPasswordVisible ==> r == MaskPassword(connectionString)
  {
    if isPasswordVisible then connectionString else MaskPassword(connectionString)
  }

  /** The search finds the first match. */
  lemma FirstKeyFinds(s: string, i: nat)
    requires IsFirstKey(s, i)
    ensures FirstKey(s, 0) == Some(i)
  {
  }

  /** Masking replaces the value of the first match, the maximal run of
      non-`;` characters after the key, by the mask; the text before it, the
      key as written and everything from the following `;` on are kept.
      Without a match the string is returned as it is. */
  lemma MaskPasswordSpec(s: string)
    ensures (forall i :: 0 <= i < |s| ==> !KeyAt(s, i)) ==> MaskPassword(s) == s
    ensures forall i :: IsFirstKey(s, i) ==>
      MaskPassword(s) == s[..i + KeyLength] + Mask + s[ValueEnd(s, i + KeyLength)..]
  {
    forall i | IsFirstKey(s, i)
      ensures MaskPassword(s) == s[..i + KeyLength] + Mask + s[ValueEnd(s, i + KeyLength)..]
    {
      FirstKeyFinds(s, i);
    }
  }

  /** Whether a match starts at `k` depends only on the characters up to the
      one after the key. */
  lemma KeyAtDependsOnPrefix(s: string, t: string, p: nat, k: int)
    requires p <= |s| && p <= |t| && s[..p] == t[..p]
    requires 0 <= k && k + KeyLength < p
    ensures KeyAt(s, k) <==> KeyAt(t, k)
  {
    assert s[k..k + KeyLength] == s[..p][k..k + KeyLength];
    assert t[k..k + KeyLength] == t[..p][k..k + KeyLength];
    assert s[k + KeyLength] == s[..p][k + KeyLength];
    assert t[k + KeyLength] == t[..p][k + KeyLength];
  }

  /** The value starting at `k` ends at `e` when no `;` comes before `e` and
      `e` is a `;` or the end of the string. */
  lemma {:induction false} ValueEndAt(s: string, k: nat, e: nat)
    requires k <= e <= |s|
    requires forall j :: k <= j < e ==> s[j] != ';'
    requires e == |s| || s[e] == ';'
    ensures ValueEnd(s, k) == e
    decreases e - k
  {
    if k < e {
      ValueEndAt(s, k + 1, e);
    }
  }

  /** In `prefix + Mask + rest`, with `rest` empty or starting with `;`, the
      value after the key is exactly the mask. */
  lemma MaskedValueEnd(prefix: string, rest: string)
    requires rest == "" || rest[0] == ';'
    ensures ValueEnd(prefix + Mask + rest, |prefix|) == |prefix| + |Mask|
  {
    var t := prefix + Mask + rest;
    var e := |prefix| + |Mask|;
    forall j | |prefix| <= j < e ensures t[j] != ';' {
      assert t[j] == Mask[j - |prefix|];
    }
    if e < |t| {
      assert t[e] == rest[0];
    }
    ValueEndAt(t, |prefix|, e);
  }

  /** Masking a masked string changes nothing. */
  lemma MaskIdempotent(s: string)
    ensures MaskPassword(MaskPassword(s)) == MaskPassword(s)
  {
    match FirstKey(s, 0)
    case None =>
    case Some(i) =>
      var p := i + KeyLength;
      var j := ValueEnd(s, p);
      var t := MaskPassword(s);
      assert t == s[..p] + Mask + s[j..];
      assert t[..p] == s[..p];
      // No match starts before `i`, and one still starts at `i`.
      forall k | 0 <= k < i ensures !KeyAt(t, k) {
        KeyAtDependsOnPrefix(s, t, p, k);
      }
      assert t[i..p] == s[i..p];
      assert t[p] == '*';
      assert IsFirstKey(t, i);
      FirstKeyFinds(t, i);
      // The masked value runs up to the same `;`, or to the end.
      MaskedValueEnd(s[..p], s[j..]);
      assert t[p + |Mask|..] == s[j..];
  }

  /** What a submit does: `handleSubmit` asks to disconnect a connected
      session and to connect otherwise. */
  datatype SubmitAction = CallConnect | CallDisconnect

  function HandleSubmit(isConnected: bool): (a: SubmitAction)
    ensures a == CallDisconnect <==> isConnected
  {
    if isConnected then CallDisconnect else CallConnect
  }

  /** The connection string input is disabled while connected or loading. */
  predicate InputDisabled(isConnected: bool, isLoading: bool)
  {
    isConnected || isLoading
  }

  /** The submit button is disabled while loading or while the string is
      blank once trimmed. */
  predicate SubmitDisabled(isLoading: bool, connectionString: string)
  {
    isLoading || Trim(connectionString) == ""
  }

  /** The submit button's label: `Connecting...` whenever loading, whatever
      the operation; otherwise what a submit would do. */
  function ButtonLabel(isLoading: bool, isConnected: bool): (r: string)
    ensures isLoading ==> r == "Connecting..."
    ensures !isLoading ==> r == (if HandleSubmit(isConnected) == CallDisconnect then "Disconnect" else "Connect")
  {
    if isLoading then "Connecting..." else if isConnected then "Disconnect" else "Connect"
  }

  /** An enabled submit button means a non-blank string and nothing loading,
      which are exactly the conditions under which `connect` calls the
      backend instead of returning at once. */
  lemma EnabledSubmitPassesConnectGuards(isLoading: bool, connectionString: string)
    requires !SubmitDisabled(isLoading, connectionString)
    ensures !isLoading && !IsBlank(connectionString)
  {
    TrimEmptyIffBlank(connectionString);
  }
}
