/** Rendered text (markdown, captions, HTML) as a sequence of segments:
    literal text, and values handed to Python's formatter. The digits a
    format spec produces are not modelled; a segment records which value is
    formatted and with which spec. */
module Text {
  import opened PyValues

  /** The numeric format specs the core uses. */
  datatype NumSpec =
    | OneDecimal        // `:.1f`
    | TwoDecimals       // `:.2f`
    | SignedTwoDecimals // `:+.2f`
    | Grouped           // `:,`

  datatype Seg =
    | Lit(s: string)                  // literal text
    | Show(v: Value)                  // `{v}` / `str(v)`
    | Number(spec: NumSpec, x: real)  // `{x:<spec>}`
    | Int(n: int)                     // `{n}` of a Python `int`
    | Clock(now: int, withTime: bool) // `strftime` of the current time

  type Doc = seq<Seg>

  /** `f"{v:<spec>}"`: only a number takes a numeric spec; a string raises
      `ValueError` (unknown format code), anything else `TypeError`. */
  function FormatNum(v: Value, spec: NumSpec): (r: Result<Seg>)
    ensures r.Ok? <==> v.Num?
    ensures v.Num? ==> r.value == Number(spec, v.x)
    ensures v.Str? ==> r.Raise? && r.exc.kind == ValueError
  {
    match v
    case Num(x) => Ok(Number(spec, x))
    case Str(_) => Raise(Exc(ValueError, ProviderText(StrFormatCode)))
    case _ => Raise(Exc(TypeError, ProviderText(UnsupportedFormat)))
  }

  // ---------------------------------------------------------------------
  // Text assembled from pieces that may raise

  /** `a` then `b`: the first piece that raises decides the outcome. */
  function Then(a: Result<Doc>, b: Result<Doc>): (r: Result<Doc>)
    ensures r.Ok? <==> a.Ok? && b.Ok?
    ensures r.Ok? ==> r.value == a.value + b.value
    ensures a.Raise? ==> r == a
    ensures a.Ok? && b.Raise? ==> r == b
  {
    if a.Raise? then a else if b.Raise? then b else Ok(a.value + b.value)
  }

  /** The pieces in order; it raises when any of them does. */
  function Join(parts: seq<Result<Doc>>): (r: Result<Doc>)
    ensures r.Ok? <==> forall k :: 0 <= k < |parts| ==> parts[k].Ok?
  {
    if parts == [] then Ok([]) else Then(parts[0], Join(parts[1..]))
  }

  lemma ThenAssociative(a: Result<Doc>, b: Result<Doc>, c: Result<Doc>)
    ensures Then(Then(a, b), c) == Then(a, Then(b, c))
  {
    if a.Ok? && b.Ok? && c.Ok? {
      assert (a.value + b.value) + c.value == a.value + (b.value + c.value);
    }
  }

  lemma {:induction false} JoinAppend(a: seq<Result<Doc>>, b: seq<Result<Doc>>)
    ensures Join(a + b) == Then(Join(a), Join(b))
  {
    if a == [] {
      assert a + b == b;
      if Join(b).Ok? {
        assert [] + Join(b).value == Join(b).value;
      }
    } else {
      assert (a + b)[0] == a[0];
      assert (a + b)[1..] == a[1..] + b;
      JoinAppend(a[1..], b);
      ThenAssociative(a[0], Join(a[1..]), Join(b));
    }
  }

  /** Growing text by one more piece, as a loop does. */
  lemma JoinSnoc(parts: seq<Result<Doc>>, i: int)
    requires 0 <= i < |parts| && Join(parts[..i]).Ok? && parts[i].Ok?
    ensures Join(parts[..i + 1]) == Ok(Join(parts[..i]).value + parts[i].value)
  {
    assert parts[..i + 1] == parts[..i] + [parts[i]];
    JoinAppend(parts[..i], [parts[i]]);
    assert [parts[i]][1..] == [];
    assert Join([parts[i]]) == Ok(parts[i].value + []);
    assert parts[i].value + [] == parts[i].value;
  }

  /** The first part that raises is what the whole raises. */
  lemma JoinFirstRaise(parts: seq<Result<Doc>>, i: int)
    requires 0 <= i < |parts| && Join(parts[..i]).Ok? && parts[i].Raise?
    ensures Join(parts) == parts[i]
  {
    assert parts == parts[..i] + parts[i..];
    JoinAppend(parts[..i], parts[i..]);
  }

  /** Regrouping five pieces of text to the left. */
  lemma RegroupFive(a: Doc, b: Doc, c: Doc, d: Doc, e: Doc)
    ensures a + (b + (c + (d + e))) == a + b + c + d + e
  {
  }

  /** Regrouping three pieces of text. */
  lemma RegroupThree(a: Doc, b: Doc, c: Doc)
    ensures a + b + c == a + (b + c)
  {
  }

  /** Regrouping four pieces of text. */
  lemma Regroup(a: Doc, b: Doc, c: Doc, d: Doc)
    ensures a + b + c + d == a + (b + (c + d))
  {
  }

  /** Regrouping five pieces of text. */
  lemma RegroupMiddle(a: Doc, b: Doc, c: Doc, d: Doc, e: Doc)
    ensures a + b + c + d + e == a + ((b + c + d) + e)
  {
  }

  /** Appending a fixed tail after a loop over parts. */
  lemma ThenTail(a: Doc, parts: seq<Result<Doc>>, r: Result<Doc>, tail: Doc)
    requires r == Then(Ok(a), Join(parts))
    ensures r.Ok? ==> Then(Ok(a), Then(Join(parts), Ok(tail))) == Ok(r.value + tail)
    ensures r.Raise? ==> Then(Ok(a), Then(Join(parts), Ok(tail))) == r
  {
    if r.Ok? {
      assert r.value + tail == a + (Join(parts).value + tail);
    }
  }

  /** The text of parts that all render ends with the text of the last. */
  lemma JoinLast(parts: seq<Result<Doc>>)
    requires |parts| > 0 && Join(parts).Ok?
    ensures Join(parts).value == Join(parts[..|parts| - 1]).value + parts[|parts| - 1].value
  {
    var n := |parts|;
    JoinSnoc(parts, n - 1);
    assert parts[..n] == parts;
  }

  /** Three parts join without raising exactly when none of them raises. */
  lemma JoinThreeOk(parts: seq<Result<Doc>>)
    requires |parts| == 3
    ensures Join(parts).Ok? <==> parts[0].Ok? && parts[1].Ok? && parts[2].Ok?
  {
  }

  /** Three parts that all render join into their concatenation. */
  lemma JoinThree(parts: seq<Result<Doc>>)
    requires |parts| == 3 && parts[0].Ok? && parts[1].Ok? && parts[2].Ok?
    ensures Join(parts) == Ok(parts[0].value + parts[1].value + parts[2].value)
  {
    var a, b, c := parts[0].value, parts[1].value, parts[2].value;
    assert parts[1..][1..][1..] == [];
    assert Join(parts[2..]) == Ok(c + []);
    assert c + [] == c;
    assert Join(parts[1..]) == Ok(b + c);
    assert Join(parts) == Ok(a + (b + c));
    assert a + (b + c) == a + b + c;
  }

  /** One step of a loop that appends part `i` to the text built from the
      parts before it. */
  lemma JoinStep(text0: Doc, parts: seq<Result<Doc>>, i: int, next: Result<Doc>)
    requires 0 <= i < |parts| && Join(parts[..i]).Ok?
    requires next == Then(Ok(text0 + Join(parts[..i]).value), parts[i])
    ensures next.Raise? ==> Join(parts) == next
    ensures next.Ok? ==> Join(parts[..i + 1]).Ok? && next.value == text0 + Join(parts[..i + 1]).value
  {
    if parts[i].Raise? {
      JoinFirstRaise(parts, i);
    } else {
      JoinStepOk(text0, Join(parts[..i]).value, parts, i);
    }
  }

  lemma JoinStepOk(text0: Doc, before: Doc, parts: seq<Result<Doc>>, i: int)
    requires 0 <= i < |parts| && Join(parts[..i]) == Ok(before) && parts[i].Ok?
    ensures Join(parts[..i + 1]) == Ok(before + parts[i].value)
    ensures (text0 + before) + parts[i].value == text0 + Join(parts[..i + 1]).value
  {
    JoinSnoc(parts, i);
    RegroupThree(text0, before, parts[i].value);
  }

  /** `items[:n]`. */
  function Take<T>(items: seq<T>, n: nat): (r: seq<T>)
    ensures |r| == if |items| < n then |items| else n
    ensures r <= items
  {
    if |items| < n then items else items[..n]
  }

  /** `[f(x) for x in xs]`. */
  function Map<A, B>(f: A -> B, xs: seq<A>): (r: seq<B>)
    ensures |r| == |xs|
    ensures forall k :: 0 <= k < |xs| ==> r[k] == f(xs[k])
  {
    if xs == [] then [] else [f(xs[0])] + Map(f, xs[1..])
  }

  /** Functions that agree on the items map them alike. */
  lemma MapAgree<A, B>(f: A -> B, g: A -> B, xs: seq<A>)
    requires forall k :: 0 <= k < |xs| ==> f(xs[k]) == g(xs[k])
    ensures Map(f, xs) == Map(g, xs)
  {
  }

  lemma {:induction false} MapAppend<A, B>(f: A -> B, a: seq<A>, b: seq<A>)
    ensures Map(f, a + b) == Map(f, a) + Map(f, b)
  {
    if a == [] {
      assert a + b == b;
    } else {
      assert (a + b)[1..] == a[1..] + b;
      MapAppend(f, a[1..], b);
    }
  }

  /** `enumerate(items, start)` mapped through `line`. */
  function Enumerate(line: (int, Value) -> Result<Doc>, items: seq<Value>, start: int): (r: seq<Result<Doc>>)
    ensures |r| == |items|
    ensures forall k :: 0 <= k < |items| ==> r[k] == line(start + k, items[k])
  {
    if items == [] then [] else [line(start, items[0])] + Enumerate(line, items[1..], start + 1)
  }

  /** The `{n}` integers of a document, in order: the numbers of its
      numbered lines or headings. */
  function Numbers(d: Doc): seq<int> {
    if d == [] then [] else (if d[0].Int? then [d[0].n] else []) + Numbers(d[1..])
  }

  lemma {:induction false} NumbersAppend(a: Doc, b: Doc)
    ensures Numbers(a + b) == Numbers(a) + Numbers(b)
  {
    if a == [] {
      assert a + b == b;
    } else {
      assert (a + b)[0] == a[0];
      assert (a + b)[1..] == a[1..] + b;
      NumbersAppend(a[1..], b);
    }
  }

  lemma {:induction false} NoNumbers(d: Doc)
    requires forall k :: 0 <= k < |d| ==> !d[k].Int?
    ensures Numbers(d) == []
  {
    if d != [] {
      NoNumbers(d[1..]);
    }
  }

  /** A body between a title and a tail without numbers keeps its numbers. */
  lemma FramedNumbers(title: Doc, body: Doc, tail: Doc)
    requires Numbers(title) == [] && Numbers(tail) == []
    ensures Numbers(title + (body + tail)) == Numbers(body)
  {
    NumbersAppend(title, body + tail);
    NumbersAppend(body, tail);
    assert Numbers(body) + [] == Numbers(body);
    assert [] + Numbers(body) == Numbers(body);
  }

  /** When every line carries its own number and nothing else numbered, the
      enumerated lines are numbered `start`, `start + 1`, … in order. */
  lemma {:induction false} EnumerateNumbers(line: (int, Value) -> Result<Doc>, items: seq<Value>, start: int)
    requires forall i, v :: line(i, v).Ok? ==> Numbers(line(i, v).value) == [i]
    requires Join(Enumerate(line, items, start)).Ok?
    ensures var n := Numbers(Join(Enumerate(line, items, start)).value);
      |n| == |items| && forall k :: 0 <= k < |n| ==> n[k] == start + k
  {
    if items != [] {
      var rest := Enumerate(line, items[1..], start + 1);
      assert Enumerate(line, items, start) == [line(start, items[0])] + rest;
      assert Enumerate(line, items, start)[1..] == rest;
      assert Enumerate(line, items, start)[0] == line(start, items[0]);
      EnumerateNumbers(line, items[1..], start + 1);
      NumbersAppend(line(start, items[0]).value, Join(rest).value);
    }
  }

  /** `block(start, items[0]) + block(start + 1, items[1]) + …`: text made
      of one block per item, numbered from `start`. */
  function Blocks<T>(block: (int, T) -> Doc, items: seq<T>, start: int): Doc {
    if items == [] then [] else block(start, items[0]) + Blocks(block, items[1..], start + 1)
  }

  /** One more item adds its block, with the next number, at the end. */
  lemma {:induction false} BlocksAppend<T>(block: (int, T) -> Doc, items: seq<T>, x: T, start: int)
    ensures Blocks(block, items + [x], start) == Blocks(block, items, start) + block(start + |items|, x)
  {
    if items == [] {
      assert items + [x] == [x];
    } else {
      var b := block(start, items[0]);
      assert (items + [x])[0] == items[0];
      assert (items + [x])[1..] == items[1..] + [x];
      BlocksAppend(block, items[1..], x, start + 1);
      RegroupThree(b, Blocks(block, items[1..], start + 1), block(start + |items|, x));
    }
  }

  /** The blocks of two runs of items: those of the first run, then those
      of the second numbered on from where the first stopped. */
  lemma {:induction false} BlocksConcat<T>(block: (int, T) -> Doc, a: seq<T>, b: seq<T>, start: int)
    ensures Blocks(block, a + b, start) == Blocks(block, a, start) + Blocks(block, b, start + |a|)
  {
    if a == [] {
      assert a + b == b;
    } else {
      assert (a + b)[0] == a[0];
      assert (a + b)[1..] == a[1..] + b;
      BlocksConcat(block, a[1..], b, start + 1);
      RegroupThree(block(start, a[0]), Blocks(block, a[1..], start + 1), Blocks(block, b, start + |a|));
    }
  }

  /** Item `k` contributes block `start + k`, between the blocks of the
      items before it and those of the items after it. */
  lemma BlocksSplit<T>(block: (int, T) -> Doc, items: seq<T>, k: int, start: int)
    requires 0 <= k < |items|
    ensures Blocks(block, items, start)
         == Blocks(block, items[..k], start) + block(start + k, items[k])
            + Blocks(block, items[k + 1..], start + k + 1)
  {
    assert items == items[..k] + ([items[k]] + items[k + 1..]);
    BlocksConcat(block, items[..k], [items[k]] + items[k + 1..], start);
    BlocksConcat(block, [items[k]], items[k + 1..], start + k);
    assert [items[k]][1..] == [];
    assert Blocks(block, [items[k]], start + k) == block(start + k, items[k]) + [];
    assert block(start + k, items[k]) + [] == block(start + k, items[k]);
  }

  /** Blocks that each carry their own number once carry, together, the
      numbers `start`, `start + 1`, … in item order. */
  lemma {:induction false} BlocksNumbers<T>(block: (int, T) -> Doc, items: seq<T>, start: int)
    requires forall i, x :: Numbers(block(i, x)) == [i]
    ensures var h := Numbers(Blocks(block, items, start));
      |h| == |items| && forall k :: 0 <= k < |h| ==> h[k] == start + k
  {
    if items != [] {
      NumbersAppend(block(start, items[0]), Blocks(block, items[1..], start + 1));
      BlocksNumbers(block, items[1..], start + 1);
    }
  }

  /** `for i, item in enumerate(items, 1): text += line(i, item)`, left at
      the first line that raises. */
  method AppendEnumerated(text0: Doc, line: (int, Value) -> Result<Doc>, items: seq<Value>) returns (r: Result<Doc>)
    ensures r == Then(Ok(text0), Join(Enumerate(line, items, 1)))
  {
    ghost var lines := Enumerate(line, items, 1);
    var text := text0;
    for j := 0 to |items|
      invariant Join(lines[..j]).Ok?
      invariant text == text0 + Join(lines[..j]).value
    {
      var next := line(j + 1, items[j]);
      if next.Raise? {
        assert lines[..j + 1] == lines[..j] + [lines[j]];
        JoinAppend(lines[..j], [lines[j]]);
        assert lines == lines[..j + 1] + lines[j + 1..];
        JoinAppend(lines[..j + 1], lines[j + 1..]);
        return Raise(next.exc);
      }
      JoinSnoc(lines, j);
      text := text + next.value;
    }
    assert lines[..|items|] == lines;
    r := Ok(text);
  }

  /** `for x in xs: text += f(x)`, where the first `f(x)` that raises ends
      the loop. */
  method AppendMapped<A>(text0: Doc, f: A -> Result<Doc>, xs: seq<A>) returns (r: Result<Doc>)
    ensures r == Then(Ok(text0), Join(Map(f, xs)))
  {
    ghost var parts := Map(f, xs);
    var text := text0;
    for i := 0 to |xs|
      invariant Join(parts[..i]).Ok?
      invariant text == text0 + Join(parts[..i]).value
    {
      var part := f(xs[i]);
      JoinStep(text0, parts, i, Then(Ok(text), part));
      if part.Raise? {
        return Raise(part.exc);
      }
      text := text + part.value;
    }
    assert parts[..|xs|] == parts;
    r := Ok(text);
  }
}
