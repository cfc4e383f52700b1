/** Service domains: which names `validDomain` accepts, the canonical spelling of a domain, and the
    label-aligned suffix match of sing-box's `domain_suffix`. */
module Domains {
  import opened Text

  /******* Labels *******/

  /** `strings.Split(s, ".")`. */
  function Split(s: string): (labels: seq<string>)
    ensures labels != []
  {
    if s == "" then [""]
    else
      var rest := Split(s[1..]);
      if s[0] == '.' then [""] + rest else [[s[0]] + rest[0]] + rest[1..]
  }

  function Join(labels: seq<string>): string
    requires labels != []
  {
    if |labels| == 1 then labels[0] else labels[0] + "." + Join(labels[1..])
  }

  lemma {:induction false} JoinSplit(s: string)
    ensures Join(Split(s)) == s
  {
    if s != "" {
      JoinSplit(s[1..]);
      var rest := Split(s[1..]);
      assert s == [s[0]] + s[1..];
      if s[0] == '.' {
        assert ([""] + rest)[1..] == rest;
      } else {
        assert ([[s[0]] + rest[0]] + rest[1..])[1..] == rest[1..];
      }
    }
  }

  lemma {:induction false} SplitUndotted(part: string)
    requires '.' !in part
    ensures Split(part) == [part]
  {
    if part != "" {
      SplitUndotted(part[1..]);
      assert part == [part[0]] + part[1..];
    }
  }

  /** A dot separates labels. */
  lemma {:induction false} SplitDot(a: string, b: string)
    ensures Split(a + "." + b) == Split(a) + Split(b)
  {
    var s := a + ("." + b);
    assert s == a + "." + b;
    if a == "" {
      assert s == "." + b && s[1..] == b;
    } else {
      var t := a[1..] + "." + b;
      assert s[0] == a[0] && s[1..] == t;
      SplitDot(a[1..], b);
      SplitHead(Split(a[1..]), Split(b), a[0]);
    }
  }

  /** Extending the first label of a list does not touch what is appended to it. */
  lemma SplitHead(first: seq<string>, second: seq<string>, c: char)
    requires first != []
    ensures [[c] + (first + second)[0]] + (first + second)[1..] == ([[c] + first[0]] + first[1..]) + second
    ensures [""] + (first + second) == ([""] + first) + second
  {
    assert (first + second)[1..] == first[1..] + second;
  }

  lemma {:induction false} SplitJoin(labels: seq<string>)
    requires labels != [] && forall l :: l in labels ==> '.' !in l
    ensures Split(Join(labels)) == labels
  {
    SplitUndotted(labels[0]);
    if |labels| > 1 {
      SplitJoin(labels[1..]);
      SplitDot(labels[0], Join(labels[1..]));
      assert labels == [labels[0]] + labels[1..];
    } else {
      assert labels == [labels[0]];
    }
  }

  lemma {:induction false} JoinConcat(a: seq<string>, b: seq<string>)
    requires a != [] && b != []
    ensures Join(a + b) == Join(a) + "." + Join(b)
  {
    if |a| == 1 {
      assert (a + b)[1..] == b;
    } else {
      assert (a + b)[1..] == a[1..] + b;
      JoinConcat(a[1..], b);
    }
  }

  /******* Accepted names *******/

  /** The letter-digit-hyphen alphabet of section 2.3.1 of RFC 1035, lower case. */
  predicate IsLDH(c: char) {
    'a' <= c <= 'z' || '0' <= c <= '9' || c == '-'
  }

  /** A label of section 2.3.4 of RFC 1035 that may start with a digit, as section 2.1 of RFC 1123 allows. */
  predicate IsLabel(part: string) {
    && 1 <= |part| <= 63
    && part[0] != '-' && part[|part| - 1] != '-'
    && forall i :: 0 <= i < |part| ==> IsLDH(part[i])
  }

  predicate IsHostName(domain: string) {
    && |domain| <= 253
    && forall part :: part in Split(domain) ==> IsLabel(part)
  }

  /** The accepted names, said without a parser: at most 253 characters of dot-separated labels, each of
      1 to 63 lower-case letters, digits and hyphens, without a hyphen at either end. */
  lemma HostNameGrammar(domain: string)
    ensures IsHostName(domain) <==>
            |domain| <= 253 && exists labels: seq<string> ::
              labels != [] && domain == Join(labels) && forall l :: l in labels ==>
                && 1 <= |l| <= 63 && l[0] != '-' && l[|l| - 1] != '-'
                && forall i :: 0 <= i < |l| ==> 'a' <= l[i] <= 'z' || '0' <= l[i] <= '9' || l[i] == '-'
  {
    HostNameLabels(domain);
  }

  lemma HostNameLabels(domain: string)
    ensures IsHostName(domain) <==>
            |domain| <= 253 && exists labels: seq<string> ::
              labels != [] && domain == Join(labels) && forall l :: l in labels ==> IsLabel(l)
  {
    JoinSplit(domain);
    if exists labels: seq<string> :: labels != [] && domain == Join(labels) && forall l :: l in labels ==> IsLabel(l) {
      var labels: seq<string> :| labels != [] && domain == Join(labels) && forall l :: l in labels ==> IsLabel(l);
      forall l | l in labels ensures '.' !in l {}
      SplitJoin(labels);
    }
    if IsHostName(domain) {
      var labels := Split(domain);
      assert labels != [] && domain == Join(labels);
    }
  }

  method ValidDomain(domain: string) returns (ok: bool)
    ensures ok <==> IsHostName(domain)
  {
    if |domain| == 0 || |domain| > 253 {
      assert |domain| == 0 ==> "" in Split(domain);
      return false;
    }
    var labels := Split(domain);
    for i := 0 to |labels|
      invariant forall k :: 0 <= k < i ==> IsLabel(labels[k])
    {
      var part := labels[i];
      if |part| == 0 || |part| > 63 || part[0] == '-' || part[|part| - 1] == '-' {
        assert !IsLabel(labels[i]);
        return false;
      }
      for j := 0 to |part|
        invariant forall k :: 0 <= k < j ==> IsLDH(part[k])
      {
        var c := part[j];
        if !('a' <= c <= 'z' || '0' <= c <= '9' || c == '-') {
          assert !IsLabel(labels[i]);
          return false;
        }
      }
    }
    return true;
  }

  /******* Canonical spelling *******/

  /** How a configured domain is rewritten before it is validated. */
  function CanonicalDomain(raw: string): string {
    ToLower(TrimSuffixDot(TrimSpace(raw)))
  }

  lemma {:induction false} HostNameChars(domain: string)
    requires forall part :: part in Split(domain) ==> IsLabel(part)
    ensures domain != "" && domain[0] != '.' && domain[|domain| - 1] != '.'
    ensures forall i :: 0 <= i < |domain| ==> IsLDH(domain[i]) || domain[i] == '.'
  {
    JoinSplit(domain);
    JoinedChars(Split(domain));
  }

  lemma {:induction false} JoinedChars(labels: seq<string>)
    requires labels != [] && forall l :: l in labels ==> IsLabel(l)
    ensures var d := Join(labels);
            && d != "" && d[0] != '.' && d[|d| - 1] != '.'
            && forall i :: 0 <= i < |d| ==> IsLDH(d[i]) || d[i] == '.'
  {
    assert IsLabel(labels[0]);
    if |labels| > 1 {
      JoinedChars(labels[1..]);
    }
  }

  /** An accepted name is already canonical, so canonicalising twice is canonicalising once. */
  lemma HostNameIsCanonical(domain: string)
    requires IsHostName(domain)
    ensures CanonicalDomain(domain) == domain
  {
    HostNameChars(domain);
    TrimStableEnds(domain);
    assert TrimSuffixDot(domain) == domain;
    forall i | 0 <= i < |domain| ensures LowerChar(domain[i]) == domain[i] {}
  }

  /** What canonicalising does to a name written as white space, text, perhaps a final dot, white space:
      the text remains, in lower case. */
  lemma CanonicalSpelling(a: string, core: string, text: string, b: string)
    requires Blank(a) && Blank(b) && (core == "" || (!IsSpace(core[0]) && !IsSpace(core[|core| - 1])))
    requires core == text + "." || (core == text && (text == "" || text[|text| - 1] != '.'))
    ensures var name := CanonicalDomain(a + core + b);
            && |name| == |text|
            && forall i :: 0 <= i < |text| ==>
                 name[i] == if 'A' <= text[i] <= 'Z' then (text[i] as int + 32) as char
                            else if text[i] == '\U{130}' then 'i' else if text[i] == '\U{212A}' then 'k' else text[i]
  {
    TrimIs(a, core, b);
    assert TrimSuffixDot(core) == text;
  }

  /** A host name is accepted in any letter case, with white space around it and with a final dot. */
  lemma SpellingAccepted(a: string, core: string, text: string, b: string, name: string)
    requires Blank(a) && Blank(b) && IsHostName(name) && (core == text || core == text + ".")
    requires |text| == |name| && forall i :: 0 <= i < |name| ==>
               text[i] == name[i] || ('A' <= text[i] <= 'Z' && text[i] as int + 32 == name[i] as int)
    ensures CanonicalDomain(a + core + b) == name
  {
    HostNameChars(name);
    SpelledEnds(core, text, name);
    CanonicalSpelling(a, core, text, b);
    SameText(CanonicalDomain(a + core + b), text, name);
  }

  lemma SpelledEnds(core: string, text: string, name: string)
    requires name != "" && |text| == |name| && (core == text || core == text + ".")
    requires name[|name| - 1] != '.' && forall i :: 0 <= i < |name| ==> IsLDH(name[i]) || name[i] == '.'
    requires forall i :: 0 <= i < |name| ==>
               text[i] == name[i] || ('A' <= text[i] <= 'Z' && text[i] as int + 32 == name[i] as int)
    ensures !IsSpace(core[0]) && !IsSpace(core[|core| - 1]) && text[|text| - 1] != '.'
  {
  }

  lemma SameText(lowered: string, text: string, name: string)
    requires |lowered| == |text| == |name| && forall i :: 0 <= i < |name| ==> IsLDH(name[i]) || name[i] == '.'
    requires forall i :: 0 <= i < |text| ==> lowered[i] == if 'A' <= text[i] <= 'Z' then (text[i] as int + 32) as char
               else if text[i] == '\U{130}' then 'i' else if text[i] == '\U{212A}' then 'k' else text[i]
    requires forall i :: 0 <= i < |name| ==>
               text[i] == name[i] || ('A' <= text[i] <= 'Z' && text[i] as int + 32 == name[i] as int)
    ensures lowered == name
  {
  }

  /******* Suffix match *******/

  predicate SuffixMatch(suffix: string, host: string) {
    || host == suffix
    || (|host| > |suffix| && host[|host| - |suffix| - 1..] == "." + suffix)
  }

  /** A suffix match never cuts a label: it compares whole labels from the right. */
  lemma SuffixMatchLabels(suffix: string, host: string)
    ensures SuffixMatch(suffix, host) <==>
            |Split(suffix)| <= |Split(host)| && Split(host)[|Split(host)| - |Split(suffix)|..] == Split(suffix)
  {
    var s, h := Split(suffix), Split(host);
    if SuffixMatch(suffix, host) && host != suffix {
      var front := host[..|host| - |suffix| - 1];
      assert host == front + host[|host| - |suffix| - 1..];
      assert host == front + "." + suffix;
      SplitDot(front, suffix);
    }
    if |s| <= |h| && h[|h| - |s|..] == s {
      LabelsSuffix(suffix, host);
    }
  }

  lemma LabelsSuffix(suffix: string, host: string)
    requires |Split(suffix)| <= |Split(host)| && Split(host)[|Split(host)| - |Split(suffix)|..] == Split(suffix)
    ensures SuffixMatch(suffix, host)
  {
    var front := Split(host)[..|Split(host)| - |Split(suffix)|];
    assert Split(host) == front + Split(suffix);
    JoinSplit(suffix);
    JoinSplit(host);
    JoinedSuffix(front, Split(suffix));
  }

  lemma JoinedSuffix(front: seq<string>, labels: seq<string>)
    requires labels != []
    ensures SuffixMatch(Join(labels), Join(front + labels))
  {
    if front == [] {
      assert front + labels == labels;
    } else {
      JoinConcat(front, labels);
      DottedSuffix(Join(front), Join(labels));
    }
  }

  lemma DottedSuffix(before: string, suffix: string)
    ensures SuffixMatch(suffix, before + "." + suffix)
  {
    var host := before + "." + suffix;
    assert host == before + ("." + suffix);
    assert host[|before|..] == "." + suffix;
  }

  /** Two suffixes of one host that have the same length are the same name. */
  lemma SuffixDetermined(a: string, b: string, host: string)
    requires SuffixMatch(a, host) && SuffixMatch(b, host) && |a| == |b|
    ensures a == b
  {
    assert a == host[|host| - |a|..] by {
      if host != a { assert a == (host[|host| - |a| - 1..])[1..]; }
    }
    assert b == host[|host| - |b|..] by {
      if host != b { assert b == (host[|host| - |b| - 1..])[1..]; }
    }
  }
}
