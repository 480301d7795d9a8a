/** What the registry's rules imply beyond the contracts of its members:
    exact normalised keys, when the enterprise fallback applies, and that
    removing a server's keys is idempotent. */
module ActivationKeyProperties {
  import opened Wrappers
  import opened JavaStrings
  import opened ActivationKeyFactory

  /** A key made only of trimmable characters is not empty, so it is not
      replaced by a generated key: it normalises to the empty string. */
  lemma WhitespaceOnlyKeyIsNotRegenerated(key: string, uuid: string)
    requires key != ""
    requires forall i :: 0 <= i < |key| ==> IsTrimmable(key[i])
    ensures CandidateKey(Some(key), uuid) == ""
  {
  }

  /** A key with no trimmable character anywhere is used as it is. */
  lemma CleanKeyIsKept(key: string, uuid: string)
    requires key != ""
    requires forall i :: 0 <= i < |key| ==> !IsTrimmable(key[i])
    ensures CandidateKey(Some(key), uuid) == key
  {
  }

  /** A space inside a key is dropped and the characters around it keep
      their order: `"ab cd"` normalises as `"abcd"` does. */
  lemma InnerSpaceIsDropped(a: string, b: string, uuid: string)
    requires a != [] && !IsTrimmable(a[0])
    requires b != [] && !IsTrimmable(b[|b| - 1])
    ensures CandidateKey(Some(a + " " + b), uuid) == CandidateKey(Some(a + b), uuid)
  {
    var spaced, joined := a + " " + b, a + b;
    assert spaced[0] == a[0] && spaced[|spaced| - 1] == b[|b| - 1];
    assert joined[0] == a[0] && joined[|joined| - 1] == b[|b| - 1];
    UntrimmedEndsKept(spaced);
    UntrimmedEndsKept(joined);
    calc {
      CandidateKey(Some(spaced), uuid);
      RemoveAll(spaced, ' ');
      { RemoveAllAppend(a + " ", b, ' '); }
      RemoveAll(a + " ", ' ') + RemoveAll(b, ' ');
      { RemoveAllAppend(a, " ", ' '); }
      RemoveAll(a, ' ') + RemoveAll(" ", ' ') + RemoveAll(b, ' ');
      { assert RemoveAll(" ", ' ') == []; }
      RemoveAll(a, ' ') + RemoveAll(b, ' ');
      { RemoveAllAppend(a, b, ' '); }
      RemoveAll(joined, ' ');
      CandidateKey(Some(joined), uuid);
    }
  }

  /** A string that starts and ends with a kept character is its own trim. */
  lemma UntrimmedEndsKept(s: string)
    requires s != [] && !IsTrimmable(s[0]) && !IsTrimmable(s[|s| - 1])
    ensures Trim(s) == s
  {
    assert LeadingTrimmable(s) == 0;
    assert KeptEnd(s) == |s|;
  }

  /** A null key and an empty key both get a generated key, which is the
      UUID text less its hyphens. */
  lemma GeneratedKeyDropsOnlyHyphens(uuid: string)
    ensures CandidateKey(None, uuid) == CandidateKey(Some(""), uuid)
    ensures '-' !in CandidateKey(None, uuid)
    ensures |CandidateKey(None, uuid)| == |uuid| - multiset(uuid)['-']
  {
    RemoveAllLength(uuid, '-');
  }

  /** Removing a character shortens the string by its number of occurrences. */
  lemma {:induction false} RemoveAllLength(s: string, c: char)
    ensures |RemoveAll(s, c)| == |s| - multiset(s)[c]
  {
    if s != [] {
      assert s == [s[0]] + s[1..];
      RemoveAllLength(s[1..], c);
    }
  }

  /** The enterprise entitlement is on a new key exactly when there is no
      server to copy from, the server is bootstrap-only, or the server
      itself holds it. */
  lemma EnterpriseOnlyAsFallbackOrCopied(server: Option<Server>)
    ensures EnterpriseEntitled in DefaultEntitlements(server) <==>
      server.None? || server.value.bootstrap || EnterpriseEntitled in server.value.entitledGroupTypes
  {
  }

  /** A new key has no entitlement at all exactly when it copies from a
      server that is not bootstrap-only and holds no group type: no
      enterprise fallback is added then. */
  lemma NoEntitlementsOnlyFromUnentitledServer(server: Option<Server>)
    ensures DefaultEntitlements(server) == {} <==>
      server.Some? && !server.value.bootstrap && server.value.entitledGroupTypes == []
  {
    if server.Some? && !server.value.bootstrap && server.value.entitledGroupTypes != [] {
      assert server.value.entitledGroupTypes[0] in DefaultEntitlements(server);
    }
  }

  /** Removing a server's keys leaves none bound to it, so a second removal
      finds and removes nothing. */
  lemma RemovingServerKeysIsIdempotent(keys: map<string, KeyRecord>, sid: Option<ServerId>)
    ensures BoundKeys(keys - BoundKeys(keys, sid), sid) == {}
    ensures (keys - BoundKeys(keys, sid)) - BoundKeys(keys - BoundKeys(keys, sid), sid) == keys - BoundKeys(keys, sid)
  {
  }
}
