/** Normalisation and validation of what an agent sends when it enrolls. */
module EnrollmentInput {
  import opened Basics
  import opened Text

  const MAX_HOSTNAME := 255
  const MAX_METADATA_VALUE := 255
  const MAX_CAPABILITIES := 32
  const MAX_CAPABILITY := 64

  datatype Input = Input(
    hostname: string,
    operatingSystem: string,
    osVersion: string,
    architecture: string,
    agentVersion: string,
    capabilities: seq<string>)

  // None is ErrInvalidInput, the only error validation has.
  function RequiredMetadata(value: string, maximum: nat): Option<string> {
    var trimmed := TrimSpace(value);
    if trimmed == "" || ByteLength(trimmed) > maximum then None else Some(trimmed)
  }

  function Trimmed(given: seq<string>): seq<string> {
    if given == [] then [] else Trimmed(Front(given)) + [TrimSpace(Last(given))]
  }

  predicate Acceptable(capability: string) {
    capability != "" && ByteLength(capability) <= MAX_CAPABILITY
  }

  // Each element at its first occurrence.
  function FirstOccurrences(s: seq<string>): seq<string> {
    if s == [] then []
    else FirstOccurrences(Front(s)) + if Last(s) in Front(s) then [] else [Last(s)]
  }

  predicate AllAcceptable(capabilities: seq<string>) {
    forall c :: c in capabilities ==> Acceptable(c)
  }

  function Validated(input: Input): Option<Input> {
    var hostname := RequiredMetadata(input.hostname, MAX_HOSTNAME);
    var operatingSystem := RequiredMetadata(input.operatingSystem, MAX_METADATA_VALUE);
    var osVersion := RequiredMetadata(input.osVersion, MAX_METADATA_VALUE);
    var architecture := RequiredMetadata(input.architecture, MAX_METADATA_VALUE);
    var agentVersion := RequiredMetadata(input.agentVersion, MAX_METADATA_VALUE);
    if hostname.None? || operatingSystem.None? || osVersion.None? || architecture.None? || agentVersion.None?
       || |input.capabilities| > MAX_CAPABILITIES || !AllAcceptable(Trimmed(input.capabilities)) then None
    else
      Some(Input(hostname.value, operatingSystem.value, osVersion.value, architecture.value, agentVersion.value,
                 FirstOccurrences(Trimmed(input.capabilities))))
  }

  lemma {:induction false} TrimmedPrefix(given: seq<string>, i: nat)
    requires i < |given|
    ensures Trimmed(given[..i + 1]) == Trimmed(given[..i]) + [TrimSpace(given[i])]
    ensures TrimSpace(given[i]) in Trimmed(given)
  {
    assert Front(given[..i + 1]) == given[..i];
    if i == |given| - 1 {
      assert given[..i + 1] == given;
    } else {
      TrimmedPrefix(Front(given), i);
    }
  }

  lemma FirstOccurrencesAppend(s: seq<string>, x: string)
    ensures FirstOccurrences(s + [x]) == FirstOccurrences(s) + if x in s then [] else [x]
  {
    assert Front(s + [x]) == s;
  }

  lemma {:induction false} TrimmedIsPointwise(given: seq<string>)
    ensures |Trimmed(given)| == |given|
    ensures forall i :: 0 <= i < |given| ==> Trimmed(given)[i] == TrimSpace(given[i])
  {
    if given != [] {
      TrimmedIsPointwise(Front(given));
      assert given == Front(given) + [Last(given)];
    }
  }

  // A field or capability that is not blank and, trimmed, takes at most `limit` bytes.
  predicate Fits(value: string, limit: nat) {
    TrimSpace(value) != "" && ByteLength(TrimSpace(value)) <= limit
  }

  // Exactly the input that is accepted, and what becomes of each field.
  lemma AcceptanceIsExact(input: Input)
    ensures Validated(input).Some? <==>
            && Fits(input.hostname, 255) && Fits(input.operatingSystem, 255) && Fits(input.osVersion, 255)
            && Fits(input.architecture, 255) && Fits(input.agentVersion, 255)
            && |input.capabilities| <= 32
            && (forall i :: 0 <= i < |input.capabilities| ==> Fits(input.capabilities[i], 64))
    ensures Validated(input).Some? ==>
            var r := Validated(input).value;
            && r.hostname == TrimSpace(input.hostname) && r.operatingSystem == TrimSpace(input.operatingSystem)
            && r.osVersion == TrimSpace(input.osVersion) && r.architecture == TrimSpace(input.architecture)
            && r.agentVersion == TrimSpace(input.agentVersion)
            && forall x :: x in r.capabilities <==> exists i :: 0 <= i < |input.capabilities| && x == TrimSpace(input.capabilities[i])
  {
    var t := Trimmed(input.capabilities);
    TrimmedIsPointwise(input.capabilities);
    if forall i :: 0 <= i < |input.capabilities| ==> Fits(input.capabilities[i], 64) {
      forall c | c in t ensures Acceptable(c) {
        var i :| 0 <= i < |t| && t[i] == c;
        assert Fits(input.capabilities[i], 64);
      }
    }
    if AllAcceptable(t) {
      forall i | 0 <= i < |input.capabilities| ensures Fits(input.capabilities[i], 64) {
        assert Acceptable(t[i]);
      }
    }
    FirstOccurrencesIsStableDeduplication(t);
  }

  method NormalizeCapabilities(given: seq<string>) returns (r: Option<seq<string>>)
    ensures r.Some? <==> AllAcceptable(Trimmed(given))
    ensures r.Some? ==> r.value == FirstOccurrences(Trimmed(given))
  {
    var capabilities: seq<string> := [];
    var seen: set<string> := {};
    for i := 0 to |given|
      invariant AllAcceptable(Trimmed(given[..i]))
      invariant forall c :: c in seen <==> c in Trimmed(given[..i])
      invariant capabilities == FirstOccurrences(Trimmed(given[..i]))
    {
      var capability := TrimSpace(given[i]);
      TrimmedPrefix(given, i);
      if capability == "" || ByteLength(capability) > MAX_CAPABILITY {
        assert !Acceptable(capability);
        return None;
      }
      FirstOccurrencesAppend(Trimmed(given[..i]), capability);
      if capability !in seen {
        seen := seen + {capability};
        capabilities := capabilities + [capability];
      }
    }
    assert given[..|given|] == given;
    return Some(capabilities);
  }

  method ValidateInput(input: Input) returns (r: Option<Input>)
    ensures r == Validated(input)
    ensures r.Some? <==>
            && Fits(input.hostname, 255) && Fits(input.operatingSystem, 255) && Fits(input.osVersion, 255)
            && Fits(input.architecture, 255) && Fits(input.agentVersion, 255)
            && |input.capabilities| <= 32
            && (forall i :: 0 <= i < |input.capabilities| ==> Fits(input.capabilities[i], 64))
  {
    AcceptanceIsExact(input);
    var hostname := RequiredMetadata(input.hostname, MAX_HOSTNAME);
    if hostname.None? { return None; }
    var operatingSystem := RequiredMetadata(input.operatingSystem, MAX_METADATA_VALUE);
    if operatingSystem.None? { return None; }
    var osVersion := RequiredMetadata(input.osVersion, MAX_METADATA_VALUE);
    if osVersion.None? { return None; }
    var architecture := RequiredMetadata(input.architecture, MAX_METADATA_VALUE);
    if architecture.None? { return None; }
    var agentVersion := RequiredMetadata(input.agentVersion, MAX_METADATA_VALUE);
    if agentVersion.None? { return None; }
    if |input.capabilities| > MAX_CAPABILITIES { return None; }

    var capabilities := NormalizeCapabilities(input.capabilities);
    if capabilities.None? { return None; }
    return Some(Input(hostname.value, operatingSystem.value, osVersion.value, architecture.value, agentVersion.value,
                      capabilities.value));
  }

  ghost predicate NoDuplicates(s: seq<string>) {
    forall i, j :: 0 <= i < j < |s| ==> s[i] != s[j]
  }

  // The index at which `x` first occurs.
  function IndexOf(s: seq<string>, x: string): (i: nat)
    requires x in s
    ensures i < |s| && s[i] == x && forall j :: 0 <= j < i ==> s[j] != x
  {
    if s[0] == x then 0 else IndexOf(s[1..], x) + 1
  }

  // The same elements, once each, in the order in which they first occur.
  lemma {:induction false} FirstOccurrencesIsStableDeduplication(s: seq<string>)
    ensures var r := FirstOccurrences(s);
            && (forall x :: x in r <==> x in s)
            && NoDuplicates(r)
            && |r| <= |s|
            && forall i, j :: 0 <= i < j < |r| ==> r[i] in s && r[j] in s && IndexOf(s, r[i]) < IndexOf(s, r[j])
  {
    if s != [] {
      var r := FirstOccurrences(Front(s));
      FirstOccurrencesIsStableDeduplication(Front(s));
      assert s == Front(s) + [Last(s)];
      forall x | x in Front(s) ensures IndexOf(s, x) == IndexOf(Front(s), x) {
        assert s[IndexOf(Front(s), x)] == x;
      }
      if Last(s) !in Front(s) {
        assert forall i :: 0 <= i < |r| ==> r[i] in Front(s);
      }
    }
  }

  lemma {:induction false} DistinctIsFixed(s: seq<string>)
    requires NoDuplicates(s)
    ensures FirstOccurrences(s) == s
  {
    if s != [] {
      var front, last := Front(s), Last(s);
      assert s == front + [last] && last !in front;
      DistinctIsFixed(front);
      FirstOccurrencesAppend(front, last);
    }
  }

  // Within its limit, not blank, and with nothing left to trim.
  predicate Normal(value: string, maximum: nat) {
    value != "" && ByteLength(value) <= maximum && TrimSpace(value) == value
  }

  lemma RequiredMetadataIsNormal(value: string, maximum: nat)
    ensures var r := RequiredMetadata(value, maximum); r.Some? ==> Normal(r.value, maximum)
  {
    TrimmedIsFixed(value);
  }

  lemma {:induction false} TrimmedIsNormal(given: seq<string>)
    requires AllAcceptable(Trimmed(given))
    ensures |Trimmed(given)| == |given|
    ensures forall c :: c in Trimmed(given) ==> Normal(c, MAX_CAPABILITY)
  {
    if given != [] {
      TrimmedIsNormal(Front(given));
      assert Acceptable(TrimSpace(Last(given)));
      TrimmedIsFixed(Last(given));
    }
  }

  // What acceptance guarantees.
  lemma AcceptedInputIsNormal(input: Input)
    requires Validated(input).Some?
    ensures var r := Validated(input).value;
            && Normal(r.hostname, 255) && Normal(r.operatingSystem, 255) && Normal(r.osVersion, 255)
            && Normal(r.architecture, 255) && Normal(r.agentVersion, 255)
            && |r.capabilities| <= MAX_CAPABILITIES && NoDuplicates(r.capabilities)
            && (forall c :: c in r.capabilities ==> Normal(c, MAX_CAPABILITY))
            && (forall c :: c in r.capabilities <==> c in Trimmed(input.capabilities))
  {
    RequiredMetadataIsNormal(input.hostname, MAX_HOSTNAME);
    RequiredMetadataIsNormal(input.operatingSystem, MAX_METADATA_VALUE);
    RequiredMetadataIsNormal(input.osVersion, MAX_METADATA_VALUE);
    RequiredMetadataIsNormal(input.architecture, MAX_METADATA_VALUE);
    RequiredMetadataIsNormal(input.agentVersion, MAX_METADATA_VALUE);
    TrimmedIsNormal(input.capabilities);
    FirstOccurrencesIsStableDeduplication(Trimmed(input.capabilities));
  }

  lemma {:induction false} NothingToTrim(s: seq<string>)
    requires forall c :: c in s ==> Normal(c, MAX_CAPABILITY)
    ensures Trimmed(s) == s
  {
    if s != [] {
      var front, last := Front(s), Last(s);
      assert s == front + [last];
      assert Normal(last, MAX_CAPABILITY);
      NothingToTrim(front);
    }
  }

  lemma NormalIsAccepted(value: string, maximum: nat)
    requires Normal(value, maximum)
    ensures RequiredMetadata(value, maximum) == Some(value)
  {
  }

  // Validating an accepted result again returns it unchanged.
  lemma ValidationIsIdempotent(input: Input)
    requires Validated(input).Some?
    ensures Validated(Validated(input).value) == Validated(input)
  {
    AcceptedInputIsNormal(input);
    var r := Validated(input).value;
    NormalInputIsUnchanged(r);
  }

  lemma NormalInputIsUnchanged(r: Input)
    requires Normal(r.hostname, 255) && Normal(r.operatingSystem, 255) && Normal(r.osVersion, 255)
    requires Normal(r.architecture, 255) && Normal(r.agentVersion, 255)
    requires |r.capabilities| <= MAX_CAPABILITIES && NoDuplicates(r.capabilities)
    requires forall c :: c in r.capabilities ==> Normal(c, MAX_CAPABILITY)
    ensures Validated(r) == Some(r)
  {
    NormalIsAccepted(r.hostname, MAX_HOSTNAME);
    NormalIsAccepted(r.operatingSystem, MAX_METADATA_VALUE);
    NormalIsAccepted(r.osVersion, MAX_METADATA_VALUE);
    NormalIsAccepted(r.architecture, MAX_METADATA_VALUE);
    NormalIsAccepted(r.agentVersion, MAX_METADATA_VALUE);
    NothingToTrim(r.capabilities);
    DistinctIsFixed(r.capabilities);
  }
}
