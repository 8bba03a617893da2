/** The codec's loops over its package state, proved against the functions of module Codec. */
module Compressor {
  import opened Text
  import opened PathList
  import opened Codec
  import TimeStamp

  lemma DecompressRestStep(message: string, offset: nat, t: string, n: nat, env: Env)
    requires offset < |message| && ReadCompressed(message[offset..], env) == Some((t, n))
    ensures DecompressRest(message[offset..], env) == Then(t, DecompressRest(message[offset + n..], env))
  {
    hide ReadCompressed;
    assert message[offset..][n..] == message[offset + n..];
  }

  function Tail(message: string, offset: nat): string {
    if offset <= |message| then message[offset..] else ""
  }

  lemma QuoteFromShift(message: string, offset: nat, i: nat)
    requires offset + i <= |message|
    ensures QuoteFrom(message, offset + i)
         == match QuoteFrom(message[offset..], i) case None => None case Some(k) => Some(offset + k)
    decreases |message| - i
  {
    if offset + i < |message| {
      QuoteFromShift(message, offset, i + 1);
    }
  }

  class Compressor {
    var codeList: seq<string>
    var pathList: seq<string>
    const isFloat: string -> bool
    const floatBytes: string -> Four
    const floatText: Four -> string

    constructor (isFloat: string -> bool, floatBytes: string -> Four, floatText: Four -> string)
      ensures Valid() && codeList == [] && pathList == []
      ensures this.isFloat == isFloat && this.floatBytes == floatBytes && this.floatText == floatText
    {
      this.isFloat, this.floatBytes, this.floatText := isFloat, floatBytes, floatText;
      codeList, pathList := [], [];
    }

    predicate Valid()
      reads this
    {
      codeList == [] || codeList == CODES
    }

    function Config(): Env
      reads this`pathList
    {
      Env(pathList, isFloat, floatBytes, floatText)
    }

    /** `listed` is the content of the path list file, empty when it cannot be read. */
    method InitCompression(listed: seq<string>) returns (ok: bool)
      requires Valid()
      modifies this`pathList
      ensures Valid()
      ensures pathList == if old(pathList) == [] then listed else old(pathList)
      ensures ok <==> pathList != []
    {
      if |pathList| == 0 {
        pathList := listed;
        if |pathList| <= 0 {
          return false;
        }
      }
      return true;
    }

    method GetCodeListIndex(token: string) returns (code: nat)
      requires Valid()
      ensures code == CodeFrom(codeList, token, 0)
      ensures if token in codeList then code < |codeList| && codeList[code] == token && token !in codeList[..code]
              else code == 255
    {
      for i := 0 to |codeList|
        invariant CodeFrom(codeList, token, 0) == CodeFrom(codeList, token, i) && token !in codeList[..i]
      {
        if codeList[i] == token {
          return i;
        }
      }
      return NONE;
    }

    method NextQuoteMark(message: string, offset: nat) returns (i: nat)
      requires offset <= |message|
      ensures i == NextQuote(message, offset)
    {
      i := offset;
      while i < |message|
        invariant offset <= i <= |message|
        invariant QuoteFrom(message, i) == QuoteFrom(message, offset)
      {
        if message[i] == QUOTE {
          return i;
        }
        i := i + 1;
      }
      return offset;
    }

    method ReadUncompressedMessage(message: string, offset: nat) returns (token: Option<string>)
      requires offset < |message|
      ensures token == ReadToken(message[offset..])
    {
      if message[offset] == QUOTE {
        var offset2 := NextQuoteMark(message, offset + 1);
        QuoteFromShift(message, offset, 1);
        if offset2 + 1 > |message| {
          return None;
        }
        assert message[offset..][..offset2 + 1 - offset] == message[offset..offset2 + 1];
        return Some(message[offset..offset2 + 1]);
      }
      return Some(Utf8(message[offset]));
    }

    method CompressPathBytes(path: string) returns (bytes: string)
      requires |path| >= 2
      ensures bytes == CompressPathToken(path, Config())
    {
      var comparePath := Dotted(path);
      var inner := comparePath[1..|comparePath| - 1];
      var index := Search(pathList, inner);
      if index < |pathList| && pathList[index] == inner {
        return [B(index / 256), B(index)];
      }
      return path;
    }

    /** The loop body for a token longer than one byte; `offset` is behind the token. */
    method CompressQuoted(t: string, message: string, offset: nat, st: State)
      returns (appended: Option<string>, next: State)
      requires codeList == CODES && |t| >= 2
      ensures var colon := if offset >= |message| then None else Some(message[offset] == ':');
              CompressWord(t, colon, st, Config())
              == if appended.None? then None else Some((appended.value, next))
    {
      var tokenState, isArray := st.key, st.isArray;
      var inner := t[1..|t| - 1];
      var listIndex := GetCodeListIndex(inner);
      if listIndex < |codeList| {
        if listIndex == TS || listIndex == VALUE || listIndex == PATH || listIndex == REQUEST_ID
           || listIndex == SUBSCRIPTION_ID {
          tokenState := listIndex;
          isArray := false;
        }
        return Some([Byte(listIndex)]), State(tokenState, isArray);
      } else if tokenState == TS {
        if |t| < 20 {
          return None, st;
        }
        return Some(TimeStamp.Compress(t)), State(NONE, isArray);
      } else if TakesValue(tokenState) {
        if !isArray {
          tokenState := NONE;
        }
        return Some(CompressValue(inner, Config())), State(tokenState, isArray);
      } else if tokenState == PATH {
        var bytes := CompressPathBytes(t);
        return Some(bytes), State(NONE, isArray);
      } else {
        if offset >= |message| {
          return None, st;
        }
        assert t + "" == t;
        return Some(if message[offset] == ':' then t + ":" else t), st;
      }
    }

    method CompressMessage(message: string) returns (r: Option<string>)
      requires Valid()
      modifies this`codeList
      ensures Valid() && codeList == CODES
      ensures r == Compress(message, Config())
    {
      hide CompressWord, CODES;
      if |codeList| == 0 {
        codeList := CODES;
      }
      var message2, st, offset := "", START, 0;
      assert message[0..] == message;
      ThenNothing(Compress(message, Config()));
      while offset < |message|
        invariant codeList == CODES
        invariant Then(message2, CompressRest(Tail(message, offset), offset == 0, st, Config()))
               == Compress(message, Config())
      {
        ghost var rest, first := message[offset..], offset == 0;
        var token := ReadUncompressedMessage(message, offset);
        if token.None? {
          return None;
        }
        var t := token.value;
        offset := offset + |t|;
        assert Tail(message, offset) == if |t| <= |rest| then rest[|t|..] else "";
        ghost var after := Tail(message, offset);
        assert after == "" <==> offset >= |message|;
        assert after != "" ==> after[0] == message[offset];
        var appended, next := "", st;
        if |t| == 1 {
          assert t == [t[0]];
          if t[0] != ' ' && t[0] != ','
             && !((t[0] == '{' && offset == 1) || (t[0] == '}' && offset == |message|) || t[0] == ':') {
            if t[0] == '[' {
              next := next.(isArray := true);
            }
            if t[0] == ']' {
              next := next.(isArray := false);
            }
            appended := t;
          }
        } else {
          var out;
          out, next := CompressQuoted(t, message, offset, st);
          if out.None? {
            return None;
          }
          appended := out.value;
        }
        assert CompressStep(rest, first, st, Config()) == Some((appended, next, Tail(message, offset)));
        ThenThen(message2, appended, CompressRest(Tail(message, offset), false, next, Config()));
        message2, st := message2 + appended, next;
      }
      assert message2 + "" == message2;
      return Some(message2);
    }

    method DecompressValueBytes(valueCompressed: string) returns (r: Option<(string, nat)>)
      ensures r == DecompressValue(valueCompressed, 0, Config())
    {
      var text, index, isDone := "", 0, false;
      hide DecompressOne;
      ghost var goal := DecompressValue(valueCompressed, 0, Config());
      PrefixedNothing(goal);
      while !isDone
        invariant index <= |valueCompressed|
        invariant index == 0 ==> text == ""
        invariant isDone ==> Some((text, index)) == goal
        invariant !isDone ==> Prefixed(text, DecompressValue(valueCompressed, index, Config())) == goal
        decreases !isDone, |valueCompressed| - index
      {
        if index >= |valueCompressed| {
          return None;
        }
        var c := valueCompressed[index];
        ghost var here := DecompressValue(valueCompressed, index, Config());
        if c == '[' || c == ']' || c == ',' || c == '{' {
          if c == ']' || c == '{' {
            isDone := true;
            assert here == Some(([c], index + 1));
          } else {
            assert here == Prefixed([c], DecompressValue(valueCompressed, index + 1, Config()));
            PrefixedPrefixed(text, [c], DecompressValue(valueCompressed, index + 1, Config()));
          }
          text := text + [c];
          index := index + 1;
        } else {
          var one := DecompressOne(valueCompressed[index..], Config());
          if one.None? {
            return None;
          }
          var bytesRead := one.value.1;
          var appended := one.value.0;
          assert appended == appended + "";
          if index + bytesRead < |valueCompressed| && valueCompressed[index + bytesRead] == c {
            appended := appended + ",";
          }
          if index == 0 {
            isDone := true;
            assert here == Some((appended, bytesRead));
            assert text + appended == appended;
          } else {
            assert here == Prefixed(appended, DecompressValue(valueCompressed, index + bytesRead, Config()));
            PrefixedPrefixed(text, appended, DecompressValue(valueCompressed, index + bytesRead, Config()));
          }
          text := text + appended;
          index := index + bytesRead;
        }
      }
      return Some((text, index));
    }

    method ReadCompressedMessage(message: string, offset: nat) returns (r: Option<(string, nat)>)
      requires offset < |message|
      ensures r == ReadCompressed(message[offset..], Config())
    {
      var rest := message[offset..];
      if N(message[offset]) >= 128 {
        var code := N(message[offset]) - 128;
        var token := "";
        if code < KEY_VALUES {
          token := Quoted(CODES[code]);
          assert token == Quoted(CODES[code]) + "";
          if code < KEYS {
            token := token + ":";
          }
        }
        ghost var word := token;
        var payload := Some(("", 0));
        if TakesValue(code) {
          payload := DecompressValueBytes(rest[1..]);
        } else {
          payload := DecompressPayload(code, rest, Config());
        }
        if payload.None? {
          return None;
        }
        var bytesRead := 1 + payload.value.1;
        token := token + payload.value.0;
        assert token == word + payload.value.0 + "";
        if CommaAfter(code, rest, bytesRead) {
          token := token + ",";
        }
        return Some((token, bytesRead));
      }
      var token := [message[offset]];
      assert token == token + "";
      if offset + 1 < |message| && message[offset] == '}' && message[offset + 1] == '{' {
        token := token + ",";
      }
      return Some((token, 1));
    }

    /** The loop of DecompressMessage. */
    method DecompressTokens(message: string) returns (r: Option<string>)
      ensures r == DecompressRest(message, Config())
    {
      hide ReadCompressed;
      var message2, offset := "", 0;
      assert message[0..] == message;
      ThenNothing(DecompressRest(message, Config()));
      while offset < |message|
        invariant offset <= |message|
        invariant Then(message2, DecompressRest(message[offset..], Config())) == DecompressRest(message, Config())
      {
        var token := ReadCompressedMessage(message, offset);
        if token.None? {
          return None;
        }
        DecompressRestStep(message, offset, token.value.0, token.value.1, Config());
        ThenThen(message2, token.value.0, DecompressRest(message[offset + token.value.1..], Config()));
        offset := offset + token.value.1;
        message2 := message2 + token.value.0;
      }
      assert message2 + "" == message2;
      return Some(message2);
    }

    method DecompressMessage(message: string) returns (r: Option<string>)
      requires Valid()
      modifies this`codeList
      ensures Valid()
      ensures r == Decompress(message, Config())
    {
      if |message| == 0 {
        return Some(message);
      }
      hide DecompressRest, CODES;
      if |codeList| == 0 {
        codeList := CODES;
      }
      var message2 := if message[0] != '{' then "{" else "";
      var tokens := DecompressTokens(message);
      if tokens.None? {
        return None;
      }
      message2 := message2 + tokens.value;
      message2 := message2 + if message[|message| - 1] != '}' then "}" else "";
      return Some(message2);
    }
  }
}
