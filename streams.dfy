/** The two output files as mutable streams, and `Output`, the record of
    what a run of writes left in a stream before it finished or raised. */
module Streams {
  import opened Bytes
  import opened Effects

  /** `data` was written; `complete` is false when a write raised, so that
      the writes after it never happened. */
  datatype Output<T> = Output(data: seq<T>, complete: bool)

  /** Further writes, performed only if nothing raised before them. */
  function Append<T>(o: Output<T>, xs: seq<T>): (r: Output<T>)
    ensures r.complete == o.complete
    ensures !o.complete ==> r == o
    ensures r.data == if o.complete then o.data + xs else o.data
  {
    if o.complete then Output(o.data + xs, true) else o
  }

  /** A run of writes followed by another, which happens only if the first
      raised nothing. */
  function Then<T>(a: Output<T>, b: Output<T>): (r: Output<T>)
    ensures r.complete == (a.complete && b.complete)
    ensures !a.complete ==> r == a
    ensures a.complete ==> r.data == a.data + b.data
  {
    if a.complete then Output(a.data + b.data, b.complete) else a
  }

  /** A stream that received `a` and then `b`, `a` having completed, holds
      `Then(a, b)`. */
  lemma ThenWritten<T>(s0: seq<T>, a: Output<T>, b: Output<T>, s1: seq<T>)
    requires a.complete && s1 == s0 + a.data + b.data
    ensures s1 == s0 + Then(a, b).data
  {
  }

  /** The writes a loop over `xs` performs, the call for the element at
      position i being `f(i, xs[i])`, stopping at the first call that
      raised. */
  function Run<X, T>(f: (nat, X) -> Output<T>, xs: seq<X>): Output<T>
    decreases |xs|
  {
    if xs == [] then Output([], true)
    else Then(Run(f, xs[..|xs| - 1]), f(|xs| - 1, xs[|xs| - 1]))
  }

  /** The first `i + 1` elements are the first `i` and element `i`. */
  lemma TakeSnoc<X>(xs: seq<X>, i: nat)
    requires i < |xs|
    ensures xs[..i + 1] == xs[..i] + [xs[i]]
  {
  }

  lemma TakeAll<X>(xs: seq<X>)
    ensures xs[..|xs|] == xs
  {
  }

  /** Writing `b` after `a` leaves what writing `a + b` at once leaves. */
  lemma AppendAssoc<X>(s: seq<X>, a: seq<X>, b: seq<X>)
    ensures s + a + b == s + (a + b)
  {
  }

  /** One more iteration of the loop. */
  lemma RunSnoc<X, T>(f: (nat, X) -> Output<T>, xs: seq<X>, x: X)
    ensures Run(f, xs + [x]) == Then(Run(f, xs), f(|xs|, x))
  {
    assert (xs + [x])[..|xs|] == xs;
  }

  /** A stream that held `s0` plus the loop's output over `xs`, and then
      received the call for `x`, holds `s0` plus the loop's output over
      `xs + [x]`. */
  lemma RunStep<X, T>(f: (nat, X) -> Output<T>, xs: seq<X>, x: X, s0: seq<T>, s1: seq<T>, s2: seq<T>)
    requires Run(f, xs).complete && s1 == s0 + Run(f, xs).data && s2 == s1 + f(|xs|, x).data
    ensures s2 == s0 + Run(f, xs + [x]).data
    ensures Run(f, xs + [x]).complete == f(|xs|, x).complete
  {
    RunSnoc(f, xs, x);
    ThenWritten(s0, Run(f, xs), f(|xs|, x), s2);
  }

  /** The loop runs to its end exactly when no call raises. */
  lemma {:induction false} RunComplete<X, T>(f: (nat, X) -> Output<T>, xs: seq<X>)
    ensures Run(f, xs).complete <==> forall i :: 0 <= i < |xs| ==> f(i, xs[i]).complete
    decreases |xs|
  {
    if xs != [] {
      var init := xs[..|xs| - 1];
      RunComplete(f, init);
      assert forall i :: 0 <= i < |init| ==> init[i] == xs[i];
    }
  }

  /** Once a call has raised, the later elements write nothing. */
  lemma {:induction false} RunStops<X, T>(f: (nat, X) -> Output<T>, xs: seq<X>, k: nat)
    requires k <= |xs| && !Run(f, xs[..k]).complete
    ensures Run(f, xs) == Run(f, xs[..k])
    decreases |xs|
  {
    if k < |xs| {
      var init := xs[..|xs| - 1];
      assert init[..k] == xs[..k];
      RunStops(f, init, k);
    } else {
      assert xs[..k] == xs;
    }
  }

  /** What the first `k` iterations write is where the whole loop's output
      starts. */
  lemma {:induction false} RunPrefix<X, T>(f: (nat, X) -> Output<T>, xs: seq<X>, k: nat)
    requires k <= |xs|
    ensures var p := Run(f, xs[..k]).data;
      |p| <= |Run(f, xs).data| && Run(f, xs).data[..|p|] == p
    decreases |xs|
  {
    if k < |xs| {
      var init := xs[..|xs| - 1];
      assert init[..k] == xs[..k];
      RunPrefix(f, init, k);
    } else {
      assert xs[..k] == xs;
    }
  }

  /** Two loops whose calls agree on every element write the same. */
  lemma {:induction false} RunSame<X, T>(f: (nat, X) -> Output<T>, g: (nat, X) -> Output<T>, xs: seq<X>)
    requires forall i :: 0 <= i < |xs| ==> f(i, xs[i]) == g(i, xs[i])
    ensures Run(f, xs) == Run(g, xs)
    decreases |xs|
  {
    if xs != [] {
      var init := xs[..|xs| - 1];
      assert forall i :: 0 <= i < |init| ==> init[i] == xs[i];
      RunSame(f, g, init);
    }
  }

  /** Everything the loop writes was written by one of its calls. */
  lemma {:induction false} RunMembers<X, T>(f: (nat, X) -> Output<T>, xs: seq<X>, y: T)
    requires y in Run(f, xs).data
    ensures exists i :: 0 <= i < |xs| && y in f(i, xs[i]).data
    decreases |xs|
  {
    var init := xs[..|xs| - 1];
    var r := Run(f, init);
    if r.complete && y !in r.data {
      assert y in f(|xs| - 1, xs[|xs| - 1]).data;
    } else {
      RunMembers(f, init, y);
      var i :| 0 <= i < |init| && y in f(i, init[i]).data;
      assert init[i] == xs[i];
    }
  }

  /** A loop that ran to its end holds what each of its calls wrote. */
  lemma {:induction false} RunHolds<X, T>(f: (nat, X) -> Output<T>, xs: seq<X>, i: nat, y: T)
    requires Run(f, xs).complete && i < |xs| && y in f(i, xs[i]).data
    ensures y in Run(f, xs).data
    decreases |xs|
  {
    var init := xs[..|xs| - 1];
    if i < |xs| - 1 {
      assert init[i] == xs[i];
      RunHolds(f, init, i, y);
    }
  }

  /** A loop none of whose calls writes anything writes nothing. */
  lemma {:induction false} RunSilent<X, T>(f: (nat, X) -> Output<T>, xs: seq<X>)
    requires forall i :: 0 <= i < |xs| ==> f(i, xs[i]).data == []
    ensures Run(f, xs).data == []
    decreases |xs|
  {
    if xs != [] {
      var init := xs[..|xs| - 1];
      assert forall i :: 0 <= i < |init| ==> init[i] == xs[i];
      RunSilent(f, init);
    }
  }

  /** A file opened in binary mode. */
  class ByteStream {
    var bytes: seq<byte>

    constructor ()
      ensures bytes == []
    {
      bytes := [];
    }

    /** `open(path, "wb")` empties the file. */
    method Truncate()
      modifies this
      ensures bytes == []
    {
      bytes := [];
    }

    method Write(bs: seq<byte>)
      modifies this
      ensures bytes == old(bytes) + bs
    {
      bytes := bytes + bs;
    }

    /** `write(struct.pack("f", f))` */
    method PackFloat(f: Float32)
      modifies this
      ensures bytes == old(bytes) + f.packed
    {
      bytes := bytes + f.packed;
    }

    /** `write(struct.pack("B", v))`: struct.error, and nothing written,
        when `v` is not in 0..255. */
    method PackByte(v: int) returns (ok: bool)
      modifies this
      ensures ok == IsByte(v)
      ensures bytes == if ok then old(bytes) + [v] else old(bytes)
    {
      ok := 0 <= v < 256;
      if ok {
        bytes := bytes + [v];
      }
    }

    /** `write(struct.pack("4B", ...))`: all four or, when one is out of
        range, none. */
    method PackColor(c: Rgba) returns (ok: bool)
      modifies this
      ensures ok == (IsByte(c.r) && IsByte(c.g) && IsByte(c.b) && IsByte(c.a))
      ensures bytes == if ok then old(bytes) + [c.r, c.g, c.b, c.a] else old(bytes)
    {
      ok := 0 <= c.r < 256 && 0 <= c.g < 256 && 0 <= c.b < 256 && 0 <= c.a < 256;
      if ok {
        bytes := bytes + [c.r, c.g, c.b, c.a];
      }
    }

    /** `write(n.to_bytes(4, byteorder='little'))`: OverflowError, and
        nothing written, from 2^32 on. */
    method WriteU32(n: nat) returns (ok: bool)
      modifies this
      ensures ok == (n < U32_LIMIT)
      ensures bytes == if ok then old(bytes) + U32LE(n) else old(bytes)
    {
      ok := n < U32_LIMIT;
      if ok {
        bytes := bytes + U32LE(n);
      }
    }
  }

  /** A file opened in text mode; `lines` holds what each `write` call
      wrote, without the newline every call ends with. */
  class TextStream {
    var lines: seq<string>

    constructor ()
      ensures lines == []
    {
      lines := [];
    }

    /** `open(path, "w")` empties the file. */
    method Truncate()
      modifies this
      ensures lines == []
    {
      lines := [];
    }

    method WriteLine(line: string)
      modifies this
      ensures lines == old(lines) + [line]
    {
      lines := lines + [line];
    }

    /** One `write` call per line of `ls`, in order. */
    method WriteLines(ls: seq<string>)
      modifies this
      ensures lines == old(lines) + ls
    {
      for k := 0 to |ls|
        invariant lines == old(lines) + ls[..k]
      {
        WriteLine(ls[k]);
        assert ls[..k + 1] == ls[..k] + [ls[k]];
      }
      assert ls[..|ls|] == ls;
    }
  }
}
