/** The `aud` claim's custom JSON form (pkg/models/models.go). */
module AudienceJson {
  import opened Wrappers
  import opened Models

  /** As much of JSON as an `aud` claim can hold. */
  datatype Json = JString(text: string) | JNull | JArray(elems: seq<Json>) | JOther

  function Strings(texts: seq<string>): seq<Json> {
    seq(|texts|, i requires 0 <= i < |texts| => JString(texts[i]))
  }

  /** A lone audience is a string, several are an array, none is the empty string. */
  function Marshal(a: Audience): Json {
    if |a| == 0 then JString("")
    else if |a| == 1 then JString(a[0])
    else JArray(Strings(a))
  }

  /** Decoding an array into strings: null leaves an element empty, anything else but a string is an error. */
  function DecodeStrings(elems: seq<Json>): Option<seq<string>> {
    if elems == [] then Some([])
    else
      var rest := DecodeStrings(elems[1..]);
      match elems[0]
      case JString(t) => if rest.Some? then Some([t] + rest.value) else None
      case JNull => if rest.Some? then Some([""] + rest.value) else None
      case _ => None
  }

  /** Decoding null into a string succeeds and leaves it empty. */
  function Unmarshal(j: Json): Option<Audience> {
    match j
    case JString(t) => Some(if t == "" then [] else [t])
    case JNull => Some([])
    case JArray(elems) => DecodeStrings(elems)
    case JOther => None
  }

  /** The variable an `aud` claim is decoded into. */
  class AudienceVar {
    var value: Audience

    constructor ()
      ensures value == []
    {
      value := [];
    }

    /** UnmarshalJSON overwrites its receiver, or leaves it alone and reports an error. */
    method UnmarshalJSON(data: Json) returns (ok: bool)
      modifies this
      ensures ok == Unmarshal(data).Some?
      ensures value == if ok then Unmarshal(data).value else old(value)
    {
      if data.JString? || data.JNull? {
        var single := if data.JString? then data.text else "";
        value := if single == "" then [] else [single];
        return true;
      }
      if data.JOther? {
        return false;
      }
      var multi: seq<string> := [];
      var i := |data.elems|;
      while i > 0
        invariant 0 <= i <= |data.elems|
        invariant DecodeStrings(data.elems[i..]) == Some(multi)
        invariant value == old(value)
      {
        assert data.elems[i - 1..][1..] == data.elems[i..];
        var e := data.elems[i - 1];
        if !e.JString? && !e.JNull? {
          DecodeFails(data.elems, i - 1);
          return false;
        }
        multi := [if e.JString? then e.text else ""] + multi;
        i := i - 1;
      }
      assert data.elems[0..] == data.elems;
      value := multi;
      return true;
    }
  }

  lemma {:induction false} DecodeFails(elems: seq<Json>, i: nat)
    requires i < |elems| && !elems[i].JString? && !elems[i].JNull?
    ensures DecodeStrings(elems).None?
  {
    if i > 0 {
      assert elems[1..][i - 1] == elems[i];
      DecodeFails(elems[1..], i - 1);
    }
  }

  lemma {:induction false} DecodeInvertsStrings(texts: seq<string>)
    ensures DecodeStrings(Strings(texts)) == Some(texts)
  {
    if texts != [] {
      DecodeInvertsStrings(texts[1..]);
      assert Strings(texts)[1..] == Strings(texts[1..]);
      assert [texts[0]] + texts[1..] == texts;
    }
  }

  /** What an audience becomes on the wire and back. */
  function Normalized(a: Audience): Audience {
    if a == [""] then [] else a
  }

  /** Decoding what was encoded always works, and is the identity except on a lone empty string. */
  lemma AudienceRoundTrip(a: Audience)
    ensures Unmarshal(Marshal(a)) == Some(Normalized(a))
    ensures Unmarshal(Marshal(a)) == Some(a) <==> a != [""]
  {
    if |a| == 1 {
      assert a == [a[0]];
    } else {
      DecodeInvertsStrings(a);
    }
  }

  /** Whether an audience is listed survives the round trip, for every audience and every query. */
  lemma ContainsSurvivesRoundTrip(a: Audience, want: string)
    ensures Unmarshal(Marshal(a)).Some?
    ensures AudienceContains(Unmarshal(Marshal(a)).value, want) <==> AudienceContains(a, want)
  {
    AudienceRoundTrip(a);
  }
}
