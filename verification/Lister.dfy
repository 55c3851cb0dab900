/** sftp/requestprefix.go: paged directory listing. */
module Lister {

  type FileInfo = nat

  /**
   * Copies as many entries from `offset` on as fit, and reports the end of the listing whenever
   * the buffer was not filled (or nothing was left). A negative offset panics.
   */
  method ListAt(f: seq<FileInfo>, ls: array<FileInfo>, offset: int) returns (n: nat, eof: bool)
    requires 0 <= offset
    modifies ls
    ensures n <= ls.Length && (offset >= |f| ==> n == 0) && (offset < |f| ==> offset + n <= |f|)
    ensures offset < |f| ==> ls[..n] == f[offset..offset + n] && (n == ls.Length || offset + n == |f|)
    ensures ls[n..] == old(ls[..])[n..]
    ensures eof <==> offset >= |f| || n < ls.Length
  {
    if offset >= |f| {
      return 0, true;
    }
    n := 0;
    while n < ls.Length && offset + n < |f|
      invariant n <= ls.Length && offset + n <= |f|
      invariant forall j :: 0 <= j < n ==> ls[j] == f[offset + j]
      invariant forall j :: n <= j < ls.Length ==> ls[j] == old(ls[j])
    {
      ls[n] := f[offset + n];
      n := n + 1;
    }
    assert ls[..n] == f[offset..offset + n];
    assert ls[n..] == old(ls[..])[n..];
    eof := n < ls.Length;
  }

  /**
   * A client that asks for pages of the given sizes, from offset 0, advancing by what it got, until
   * it sees the end: what it has is always a prefix of the listing, the end means it has all of
   * it, once and in order, and more pages than entries are always enough to see the end.
   */
  method ReadPages(f: seq<FileInfo>, sizes: seq<nat>) returns (got: seq<FileInfo>, eof: bool)
    requires forall i :: 0 <= i < |sizes| ==> sizes[i] > 0
    ensures got <= f
    ensures eof ==> got == f
    ensures |sizes| > |f| ==> eof
    ensures !eof ==> |sizes| <= |got|
  {
    got, eof := [], false;
    for i := 0 to |sizes|
      invariant got <= f && !eof && i <= |got|
    {
      var ls := new FileInfo[sizes[i]];
      var n;
      n, eof := ListAt(f, ls, |got|);
      assert got + ls[..n] <= f;
      got := got + ls[..n];
      if eof {
        return;
      }
    }
  }
}
