/**
  The `-D<key>=<value>` syntax in which sonar-scanner receives analysis
  properties on its command line, together with the decoder that reads such
  an argument back into its key and value. The decoder lets the step's
  argument lists be described by the properties they define.
 */
module ScannerProperties {
  import opened Wrappers

  /** The command-line argument that defines property `key` as `value`. */
  function Define(key: string, value: string): string
  {
    "-D" + key + "=" + value
  }

  /** A property key that can be read back unambiguously: non-empty and free of '='. */
  predicate WellFormedKey(key: string)
  {
    |key| > 0 && '=' !in key
  }

  /** The index of the first '=' in `s`, or `|s|` when `s` has none. */
  function FirstEquals(s: string): (i: nat)
    ensures i <= |s|
    ensures i < |s| ==> s[i] == '='
    ensures forall j :: 0 <= j < i ==> s[j] != '='
  {
    if s == [] then 0
    else if s[0] == '=' then 0
    else 1 + FirstEquals(s[1..])
  }

  /**
    Reads a `-D<key>=<value>` argument: the key runs up to the first '=' and
    the value is everything after it. Any other argument yields None.
   */
  function ParseDefine(arg: string): (r: Option<(string, string)>)
    ensures r.Some? ==> '=' !in r.value.0 && arg == Define(r.value.0, r.value.1)
    ensures r.None? ==> forall k, v :: WellFormedKey(k) ==> arg != Define(k, v)
  {
    if |arg| >= 2 && arg[..2] == "-D" then
      var body := arg[2..];
      var i := FirstEquals(body);
      if i < |body| && i > 0 then
        assert arg == Define(body[..i], body[i + 1..]);
        Some((body[..i], body[i + 1..]))
      else
        AbsentDefineAux(arg);
        None
    else
      None
  }

  lemma AbsentDefineAux(arg: string)
    requires |arg| >= 2 && arg[..2] == "-D"
    requires var i := FirstEquals(arg[2..]); i == |arg[2..]| || i == 0
    ensures forall k, v :: WellFormedKey(k) ==> arg != Define(k, v)
  {
    forall k, v | WellFormedKey(k) && arg == Define(k, v)
      ensures false
    {
      assert arg[2..] == k + "=" + v;
      FirstEqualsAfterKey(k, v);
    }
  }

  /** In `key + "=" + value` the first '=' is the one right after the key. */
  lemma {:induction false} FirstEqualsAfterKey(key: string, value: string)
    requires '=' !in key
    ensures FirstEquals(key + "=" + value) == |key|
  {
    if key != [] {
      assert (key + "=" + value)[1..] == key[1..] + "=" + value;
      FirstEqualsAfterKey(key[1..], value);
    }
  }

  /** Decoding an encoded property gives back its key and value. */
  lemma ParseDefineRoundTrip(key: string, value: string)
    requires WellFormedKey(key)
    ensures ParseDefine(Define(key, value)) == Some((key, value))
  {
    var arg := Define(key, value);
    assert arg[..2] == "-D";
    var body := arg[2..];
    assert body == key + "=" + value;
    FirstEqualsAfterKey(key, value);
    assert body[..|key|] == key;
    assert body[|key| + 1..] == value;
  }

  /** The argument list that defines each (key, value) pair of `props`, in order. */
  function Encode(props: seq<(string, string)>): (args: seq<string>)
    ensures |args| == |props|
    ensures forall i :: 0 <= i < |props| ==> args[i] == Define(props[i].0, props[i].1)
  {
    if props == [] then []
    else [Define(props[0].0, props[0].1)] + Encode(props[1..])
  }

  /** An argument list whose every element defines the matching pair of `props` is their encoding. */
  lemma EncodeEach(props: seq<(string, string)>, args: seq<string>)
    requires |args| == |props|
    requires forall i :: 0 <= i < |props| ==> args[i] == Define(props[i].0, props[i].1)
    ensures args == Encode(props)
  {
  }

  /** The values a list of (key, value) pairs gives `key`, in order. */
  function Lookup(props: seq<(string, string)>, key: string): seq<string>
  {
    if props == [] then []
    else (if props[0].0 == key then [props[0].1] else []) + Lookup(props[1..], key)
  }

  /** No key occurs twice in `props`. */
  predicate DistinctKeys(props: seq<(string, string)>)
  {
    forall i, j :: 0 <= i < j < |props| ==> props[i].0 != props[j].0
  }

  /** In a list with distinct keys, a listed key has exactly the value it is listed with. */
  lemma {:induction false} LookupListed(props: seq<(string, string)>, i: nat)
    requires DistinctKeys(props) && i < |props|
    ensures Lookup(props, props[i].0) == [props[i].1]
  {
    if i == 0 {
      LookupUnlisted(props[1..], props[0].0);
    } else {
      LookupListed(props[1..], i - 1);
    }
  }

  /** A key that is not listed has no value. */
  lemma {:induction false} LookupUnlisted(props: seq<(string, string)>, key: string)
    requires forall i :: 0 <= i < |props| ==> props[i].0 != key
    ensures Lookup(props, key) == []
  {
    if props != [] {
      LookupUnlisted(props[1..], key);
    }
  }

  /** The values an argument list gives the property `key`, read with ParseDefine, in order. */
  function Values(args: seq<string>, key: string): seq<string>
  {
    if args == [] then []
    else
      var p := ParseDefine(args[0]);
      (if p.Some? && p.value.0 == key then [p.value.1] else []) + Values(args[1..], key)
  }

  /**
    Reading an encoded property list gives every key exactly the values the
    list assigns it, as long as no key contains '='.
   */
  lemma {:induction false} ValuesOfEncode(props: seq<(string, string)>, key: string)
    requires forall i :: 0 <= i < |props| ==> WellFormedKey(props[i].0)
    ensures Values(Encode(props), key) == Lookup(props, key)
  {
    if props != [] {
      var args := Encode(props);
      ParseDefineRoundTrip(props[0].0, props[0].1);
      assert args[1..] == Encode(props[1..]);
      ValuesOfEncode(props[1..], key);
    }
  }
}
