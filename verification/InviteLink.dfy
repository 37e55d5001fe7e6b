/**
 The invite link and its parser. The parser makes three unanchored searches
 over the fragment, each for the leftmost place where a letter, '=' and 64
 hexadecimal digits follow one another.
 */
module InviteLink {
  import opened Wrappers
  import opened Hex

  datatype Invite = Invite(secret: string, token: string, expectedFingerprint: Option<string>)

  function Fragment(secret: string, token: string, fingerprint: string): string {
    "#/s=" + secret + "&t=" + token + "&k=" + fingerprint
  }

  /** `base` is the origin and path of the page. */
  function GetInviteLink(base: string, secret: string, token: string, fingerprint: string): string {
    base + Fragment(secret, token, fingerprint)
  }

  /** window.location.hash: the link from its first '#'. */
  function HashOf(url: string): string {
    if url == "" || url[0] == '#' then url else HashOf(url[1..])
  }

  predicate MatchesAt(s: string, i: nat, key: char) {
    i + 66 <= |s| && s[i] == key && s[i + 1] == '=' && AllHex(s[i + 2..i + 66])
  }

  /** The captured digits of the leftmost match at or after position i. */
  function Search(s: string, i: nat, key: char): Option<string>
    decreases |s| - i
  {
    if i + 66 > |s| then None
    else if MatchesAt(s, i, key) then Some(s[i + 2..i + 66])
    else Search(s, i + 1, key)
  }

  function ParseInvite(hash: string): Option<Invite> {
    var secret, token, fp := Search(hash, 0, 's'), Search(hash, 0, 't'), Search(hash, 0, 'k');
    if secret.None? || token.None? then None else Some(Invite(secret.value, token.value, fp))
  }

  /** The search finds the match at j if nothing earlier can start one. */
  lemma {:induction false} SearchFinds(s: string, i: nat, j: nat, key: char)
    requires i <= j && MatchesAt(s, j, key)
    requires forall k :: i <= k < j ==> !(s[k] == key && s[k + 1] == '=')
    ensures Search(s, i, key) == Some(s[j + 2..j + 66])
    decreases j - i
  {
    if i < j {
      SearchFinds(s, i + 1, j, key);
    }
  }

  lemma {:induction false} SearchFails(s: string, i: nat, key: char)
    requires forall k :: i <= k && MatchesAt(s, k, key) ==> false
    ensures Search(s, i, key) == None
    decreases |s| - i
  {
    if i + 66 <= |s| {
      assert !MatchesAt(s, i, key);
      SearchFails(s, i + 1, key);
    }
  }

  /** A search succeeds only at a real match with none before it. */
  lemma {:induction false} SearchSound(s: string, i: nat, key: char) returns (j: nat)
    requires Search(s, i, key).Some?
    ensures i <= j && MatchesAt(s, j, key) && Search(s, i, key) == Some(s[j + 2..j + 66])
    ensures forall k :: i <= k < j ==> !MatchesAt(s, k, key)
    decreases |s| - i
  {
    if MatchesAt(s, i, key) {
      j := i;
    } else {
      j := SearchSound(s, i + 1, key);
    }
  }

  /** The leftmost match, and none exactly if there is none. */
  lemma SearchExactly(s: string, key: char)
    ensures Search(s, 0, key).None? <==> forall i: nat :: !MatchesAt(s, i, key)
    ensures Search(s, 0, key).Some? ==>
              exists i :: MatchesAt(s, i, key) && Search(s, 0, key).value == s[i + 2..i + 66]
                          && forall j :: 0 <= j < i ==> !MatchesAt(s, j, key)
  {
    if Search(s, 0, key).Some? {
      var i := SearchSound(s, 0, key);
    } else {
      forall i: nat | MatchesAt(s, i, key) ensures false {
        SearchComplete(s, 0, i, key);
      }
    }
  }

  lemma {:induction false} SearchComplete(s: string, i: nat, j: nat, key: char)
    requires i <= j && MatchesAt(s, j, key)
    ensures Search(s, i, key).Some?
    decreases j - i
  {
    if !MatchesAt(s, i, key) {
      SearchComplete(s, i + 1, j, key);
    }
  }

  /** An invite is read exactly if a secret and a token are found; the fingerprint may be missing. */
  lemma ParsedExactly(hash: string)
    ensures ParseInvite(hash).Some? <==>
            (exists i: nat :: MatchesAt(hash, i, 's')) && (exists i: nat :: MatchesAt(hash, i, 't'))
    ensures ParseInvite(hash).Some? ==>
              (ParseInvite(hash).value.expectedFingerprint.Some? <==> exists i: nat :: MatchesAt(hash, i, 'k'))
  {
    SearchExactly(hash, 's');
    SearchExactly(hash, 't');
    SearchExactly(hash, 'k');
  }

  /** The hash of a page is what follows its first '#', with it, and empty without one. */
  lemma {:induction false} HashExactly(url: string) returns (before: string)
    ensures url == before + HashOf(url) && '#' !in before
    ensures HashOf(url) == "" || HashOf(url)[0] == '#'
  {
    if url == "" || url[0] == '#' {
      before := "";
    } else {
      before := HashExactly(url[1..]);
      before := [url[0]] + before;
    }
  }

  lemma {:induction false} HashOfLink(base: string, fragment: string)
    requires '#' !in base && fragment != "" && fragment[0] == '#'
    ensures HashOf(base + fragment) == fragment
  {
    if base == "" {
      assert base + fragment == fragment;
    } else {
      assert (base + fragment)[1..] == base[1..] + fragment;
      HashOfLink(base[1..], fragment);
    }
  }

  /** Where each character of the fragment comes from. */
  lemma FragmentAt(secret: string, token: string, fp: string)
    requires |secret| == |token| == 64
    ensures var f := Fragment(secret, token, fp);
            && |f| == 138 + |fp|
            && f[..4] == "#/s=" && f[4..68] == secret
            && f[68..71] == "&t=" && f[71..135] == token
            && f[135..138] == "&k=" && f[138..] == fp
  {
  }

  /** The '=' of the three keys are the only ones. */
  lemma OnlyKeys(secret: string, token: string, fp: string, j: nat)
    requires |secret| == |token| == 64 && AllHex(secret) && AllHex(token) && AllHex(fp)
    requires j < |Fragment(secret, token, fp)|
    ensures Fragment(secret, token, fp)[j] == '=' ==> j == 3 || j == 70 || j == 137
  {
    var f := Fragment(secret, token, fp);
    FragmentAt(secret, token, fp);
    if 4 <= j < 68 {
      assert f[j] == secret[j - 4];
    } else if 71 <= j < 135 {
      assert f[j] == token[j - 71];
    } else if 138 <= j {
      assert f[j] == fp[j - 138];
    }
  }

  /** What the third search makes of a printed fingerprint. */
  function Captured(fp: string): Option<string> {
    if |fp| >= 64 then Some(fp[..64]) else None
  }

  lemma KeysFound(secret: string, token: string, fp: string)
    requires |secret| == |token| == 64 && AllHex(secret) && AllHex(token) && AllHex(fp)
    ensures var f := Fragment(secret, token, fp);
            && Search(f, 0, 's') == Some(secret)
            && Search(f, 0, 't') == Some(token)
            && Search(f, 0, 'k') == Captured(fp)
  {
    var f := Fragment(secret, token, fp);
    FragmentAt(secret, token, fp);
    forall j | 0 <= j < |f| ensures f[j] == '=' ==> j == 3 || j == 70 || j == 137 {
      OnlyKeys(secret, token, fp, j);
    }
    assert f[2] == f[..4][2] && f[3] == f[..4][3];
    assert f[69] == f[68..71][1] && f[70] == f[68..71][2];
    assert f[136] == f[135..138][1] && f[137] == f[135..138][2];
    SearchFinds(f, 0, 2, 's');
    SearchFinds(f, 0, 69, 't');
    if |fp| >= 64 {
      assert f[138..202] == fp[..64];
      SearchFinds(f, 0, 136, 'k');
    } else {
      SearchFails(f, 0, 'k');
    }
  }

  /**
   Parsing a printed link gives back its fields, for any hexadecimal secret and
   token of 64 digits and a fingerprint of 64 digits or none.
   */
  lemma InviteRoundTrip(base: string, secret: string, token: string, fp: string)
    requires '#' !in base
    requires |secret| == |token| == 64 && AllHex(secret) && AllHex(token)
    requires (|fp| == 64 && AllHex(fp)) || fp == ""
    ensures ParseInvite(HashOf(GetInviteLink(base, secret, token, fp)))
            == Some(Invite(secret, token, if fp == "" then None else Some(fp)))
  {
    HashOfLink(base, Fragment(secret, token, fp));
    KeysFound(secret, token, fp);
    assert fp != "" ==> fp[..64] == fp;
  }

  /** Whatever hash is parsed, the fields are 64 hexadecimal digits that stand in it behind their key. */
  lemma ParsedFieldsAreHex(hash: string)
    requires ParseInvite(hash).Some?
    ensures var v := ParseInvite(hash).value;
            && IsLeftmost(hash, 's', v.secret) && IsLeftmost(hash, 't', v.token)
            && (v.expectedFingerprint.Some? ==> IsLeftmost(hash, 'k', v.expectedFingerprint.value))
  {
    SearchExactly(hash, 's');
    SearchExactly(hash, 't');
    SearchExactly(hash, 'k');
  }

  /** These are the digits behind the leftmost place where the key stands with 64 digits. */
  ghost predicate IsLeftmost(hash: string, key: char, digits: string) {
    exists i :: 0 <= i && MatchesAt(hash, i, key) && digits == hash[i + 2..i + 66]
                && forall j :: 0 <= j < i ==> !MatchesAt(hash, j, key)
  }
}
