/** The exact condition of module CodecRoundTrip, read out for the messages VISSv2 sends. */
module CodecLimits {
  import opened Text
  import opened PathList
  import opened Codec
  import opened CodecValues
  import opened CodecMessages
  import opened CodecRoundTrip
  import TimeStamp

  /** A request, or a response without a data object: a comma between members, none behind the last. */
  predicate FlatMessage(m: seq<Elem>) {
    m != [] && forall i :: 0 <= i < |m| ==> !m[i].part.Open? && !m[i].part.Bracket? && m[i].comma == (i + 1 < |m|)
  }

  lemma KeyLead(p: Part, env: Env)
    requires Good(p, env) && !p.Bracket?
    ensures N(Encode(p, env)[0]) >= 128
  {
  }

  /** A flat message is restored exactly when no member but the last ends in one of the opening bracket bytes 0x5B and
      0x7B, the last does not end in the closing one, 0x7D, and every array keeps to one type. */
  lemma FlatRoundTripIff(m: seq<Elem>, gaps: seq<nat>, env: Env)
    requires GoodMessage(m, env) && |gaps| == |Tokens(m)| && FlatMessage(m)
    ensures Compress(MessageText(m, gaps), env).Some?
    ensures Decompress(Compress(MessageText(m, gaps), env).value, env) == Some(Canonical(m, env))
            <==> && (forall i :: 0 <= i < |m| - 1 ==> EndByte(m[i].part, env) != '[' && EndByte(m[i].part, env) != '{')
                 && EndByte(m[|m| - 1].part, env) != '}'
                 && (forall i :: 0 <= i < |m| ==> Uniform(m[i].part, env))
  {
    hide Decompress, Compress, MessageText, Canonical, Encode, Uniform, Tokens, Good;
    RoundTripIff(m, gaps, env);
    forall i | 0 <= i < |m|
      ensures m[i].comma == Restored(m[i].part, NextByte(m, i, env), env)
              <==> (i + 1 < |m| ==> EndByte(m[i].part, env) != '[' && EndByte(m[i].part, env) != '{')
    {
      assert m[i] in m;
      if i + 1 < |m| {
        assert m[i + 1] in m;
        KeyLead(m[i + 1].part, env);
      }
    }
  }

  /** A data or dp member with its object or array behind it, as every get response and notification has. */
  predicate HasData(m: seq<Elem>) {
    exists i :: 0 <= i < |m| - 1 && m[i].part.Open? && !m[i].comma
                && m[i + 1].part.Bracket? && (m[i + 1].part.c == '{' || m[i + 1].part.c == '[')
  }

  /** No message with a data object or array is ever restored: a comma appears behind the "data" key. */
  lemma DataNeverRestored(m: seq<Elem>, gaps: seq<nat>, env: Env)
    requires GoodMessage(m, env) && |gaps| == |Tokens(m)| && HasData(m)
    ensures Compress(MessageText(m, gaps), env).Some?
    ensures Decompress(Compress(MessageText(m, gaps), env).value, env) != Some(Canonical(m, env))
  {
    hide Decompress, Compress, MessageText, Canonical, Tokens, CommasRestored;
    RoundTripIff(m, gaps, env);
    DataCommasNotRestored(m, env);
  }

  lemma DataCommasNotRestored(m: seq<Elem>, env: Env)
    requires GoodMessage(m, env) && HasData(m)
    ensures !CommasRestored(m, env)
  {
    hide Good, Restored, Encode, Uniform;
    var i :| 0 <= i < |m| - 1 && m[i].part.Open? && !m[i].comma
             && m[i + 1].part.Bracket? && (m[i + 1].part.c == '{' || m[i + 1].part.c == '[');
    assert m[i] in m && m[i + 1] in m;
    OpenDemandsComma(m[i].part, m[i + 1].part, env);
    assert NextByte(m, i, env) == Some(Encode(m[i + 1].part, env)[0]);
  }

  lemma OpenDemandsComma(p: Part, next: Part, env: Env)
    requires Good(p, env) && Good(next, env) && p.Open? && next.Bracket? && (next.c == '{' || next.c == '[')
    ensures Restored(p, Some(Encode(next, env)[0]), env)
  {
  }

  // ---------------------------------------------------------------- the last byte of a member

  lemma TimeEnds(stamp: TimeStamp.Stamp, env: Env)
    requires Good(Time(stamp), env)
    ensures EndByte(Time(stamp), env) == '[' <==> stamp.minute % 4 == 1 && stamp.second == 27
    ensures EndByte(Time(stamp), env) == '{' <==> stamp.minute % 4 == 1 && stamp.second == 59
    ensures EndByte(Time(stamp), env) == '}' <==> stamp.minute % 4 == 1 && stamp.second == 61
  {
    TimeStamp.PackedBytes(stamp);
    var c := EndByte(Time(stamp), env);
    assert c == TimeStamp.Pack(stamp)[3];
    assert N('[') == 91 && N('{') == 123 && N('}') == 125;
    assert N(c) == stamp.minute % 4 * 64 + stamp.second;
  }

  lemma PathEnds(path: string, env: Env)
    requires Good(PathOf(path), env)
    ensures N(EndByte(PathOf(path), env)) == SearchIndex(env.paths, Dotted(path)) % 256
  {
  }

  lemma IntEnds(key: nat, n: int, env: Env)
    requires TakesValue(key) && -0x1_0000_0000 < n < 0x1_0000_0000 && Good(Scalar(key, Itoa(n)), env)
    ensures N(EndByte(Scalar(key, Itoa(n)), env)) == (if n < 0 then -n else n) % 256
  {
    hide GoodValue, CompressInt, Atoi, Itoa;
    AtoiOfItoa(n);
    IntLastByte(n);
    assert CompressValue(Itoa(n), env) == CompressInt(n);
  }

  lemma IntLastByte(n: int)
    requires -0x1_0000_0000 < n < 0x1_0000_0000
    ensures CompressInt(n)[|CompressInt(n)| - 1] == B(if n < 0 then -n else n)
  {
    var abs := AbsInt64(n);
    assert BigEndian(abs, Width(abs))[Width(abs) - 1] == B(abs);
  }

  /** Booleans and texts never end in a bracket byte. */
  lemma OtherEnds(key: nat, v: string, env: Env)
    requires TakesValue(key) && Good(Scalar(key, v), env)
    requires ValueKind(v, env).Bool? || ValueKind(v, env).Other?
    ensures var c := EndByte(Scalar(key, v), env); c == '"' || c == B(0) || c == B(1)
  {
  }

  /** {"requestId":"125"} comes back without its closing brace, in every environment. */
  lemma RequestId125Lost(env: Env)
    ensures var m := [Elem(Scalar(REQUEST_ID, Itoa(125)), false)];
            && GoodMessage(m, env)
            && Compress(MessageText(m, [0, 0, 0, 0]), env).Some?
            && Decompress(Compress(MessageText(m, [0, 0, 0, 0]), env).value, env) != Some(Canonical(m, env))
  {
    hide Itoa, GoodValue, Encode, Compress, Decompress, MessageText, Canonical;
    var p := Scalar(REQUEST_ID, Itoa(125));
    var m := [Elem(p, false)];
    CanonicalIntIsGood(REQUEST_ID, 125, env);
    IntEnds(REQUEST_ID, 125, env);
    assert N('}') == 125;
    assert EndByte(m[|m| - 1].part, env) == '}';
    FlatRoundTripIff(m, [0, 0, 0, 0], env);
  }

  lemma CanonicalIntIsGood(key: nat, n: nat, env: Env)
    requires TakesValue(key) && n < 0x1_0000_0000
    ensures Good(Scalar(key, Itoa(n)), env)
  {
    hide Atoi, Itoa;
    AtoiOfItoa(n);
    DigitsOnly(n);
  }

  lemma DigitsOnly(n: nat)
    ensures QUOTE !in Itoa(n) && Itoa(n) !in CODES
  {
    assert IsDigit(Itoa(n)[0]);
    assert forall i :: 0 <= i < 26 ==> !IsDigit(CODES[i][0]);
  }
}
