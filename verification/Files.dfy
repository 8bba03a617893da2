/** Files as bytes behind a cursor. Opening one does not truncate it. */
module Files {
  import opened Text

  /** The next n bytes; behind the end of the file the buffer keeps its zeros. */
  function Next(rest: string, n: nat): (r: string)
    ensures |r| == n
  {
    seq(n, i requires 0 <= i < n => if i < |rest| then rest[i] else 0 as char)
  }

  function Drop(rest: string, n: nat): string {
    if n <= |rest| then rest[n..] else ""
  }

  function Overwritten(content: string, pos: nat, bytes: string): (r: string)
    requires pos <= |content|
    ensures pos + |bytes| <= |r|
  {
    content[..pos] + bytes + Drop(content, pos + |bytes|)
  }

  lemma OverwrittenNothing(content: string)
    ensures Overwritten(content, 0, "") == content
  {
  }

  lemma OverwrittenTwice(content: string, pos: nat, a: string, b: string)
    requires pos <= |content|
    ensures Overwritten(Overwritten(content, pos, a), pos + |a|, b) == Overwritten(content, pos, a + b)
  {
  }

  /** Nothing of an older file is left exactly when it was not longer. */
  lemma NothingLeftIff(was: string, bytes: string)
    ensures Overwritten(was, 0, bytes) == bytes <==> |was| <= |bytes|
  {
    assert |Overwritten(was, 0, bytes)| == if |bytes| <= |was| then |was| else |bytes|;
  }

  /** A file with a cursor. */
  class File {
    var content: string
    var pos: nat

    constructor Open(content: string)
      ensures this.content == content && pos == 0
    {
      this.content, pos := content, 0;
    }

    predicate Valid()
      reads this
    {
      pos <= |content|
    }

    /** Opening does not truncate: bytes are overwritten, and the file grows where they end behind it. */
    method Write(bytes: string)
      requires Valid()
      modifies this
      ensures Valid() && pos == old(pos) + |bytes|
      ensures content == Overwritten(old(content), old(pos), bytes)
    {
      content := content[..pos] + bytes + Drop(content, pos + |bytes|);
      pos := pos + |bytes|;
    }

    method ReadBytes(n: nat) returns (buf: string)
      requires Valid()
      modifies this`pos
      ensures Valid() && buf == Next(old(content[pos..]), n)
      ensures content[pos..] == Drop(old(content[pos..]), n)
    {
      var rest := content[pos..];
      buf := Next(rest, n);
      if n <= |rest| {
        pos := pos + n;
      } else {
        pos := |content|;
      }
    }
  }
}
