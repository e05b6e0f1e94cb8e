/** The few pieces of Python runtime behaviour the request handler relies on:
    optional values, exceptions, the JSON values a request body can hold,
    the built-in `float` conversion and the text form of a list of strings. */
module PyValues {

  datatype Option<+T> = None | Some(value: T)

  /** The exception classes the handler tells apart: `ValueError` has a handler
      of its own; `TypeError` and `LookupError` (KeyError, IndexError) reach the
      catch-all one. */
  datatype Exception = ValueError | TypeError | LookupError

  /** The result of a Python call: a value, or a raised exception.
      Failure-compatible, so `:-` propagates an exception the way Python does. */
  datatype Call<+T> = Returned(value: T) | Raised(exc: Exception)
  {
    predicate IsFailure()
    {
      Raised?
    }

    function PropagateFailure<U>(): Call<U>
      requires Raised?
    {
      Raised(exc)
    }

    function Extract(): T
      requires Returned?
    {
      value
    }
  }

  /** A value of a decoded JSON object. For a string, `numeral` is what Python's
      `float` makes of its text, or None when the text is not a number. */
  datatype Json =
    | Number(n: real)
    | Text(numeral: Option<real>)
    | Boolean(b: bool)
    | Null
    | Array
    | Object

  /** Python's `float(x)` on a decoded JSON value. */
  function ToFloat(j: Json): (r: Call<real>)
    ensures j.Number? ==> r == Returned(j.n)
    ensures j.Text? && j.numeral.Some? ==> r == Returned(j.numeral.value)
    ensures j.Boolean? ==> r == Returned(if j.b then 1.0 else 0.0)
    ensures r == Raised(ValueError) <==> j.Text? && j.numeral.None?
    ensures r == Raised(TypeError) <==> j.Null? || j.Array? || j.Object?
    ensures r.Raised? ==> r.exc != LookupError
  {
    match j
    case Number(n) => Returned(n)
    case Text(numeral) =>
      (match numeral
       case Some(x) => Returned(x)
       case None => Raised(ValueError))
    case Boolean(b) => Returned(if b then 1.0 else 0.0)
    case Null => Raised(TypeError)
    case Array => Raised(TypeError)
    case Object => Raised(TypeError)
  }

  /** `k` occurs in `s` starting at index `i`. */
  ghost predicate MentionsAt(s: string, k: string, i: int)
  {
    0 <= i && i + |k| <= |s| && s[i..i + |k|] == k
  }

  /** `k` occurs as a contiguous piece of `s`. */
  ghost predicate Mentions(s: string, k: string)
  {
    exists i :: MentionsAt(s, k, i)
  }

  lemma MentionsInLeft(a: string, b: string, k: string)
    requires Mentions(a, k)
    ensures Mentions(a + b, k)
  {
    var i :| MentionsAt(a, k, i);
    assert (a + b)[i..i + |k|] == a[i..i + |k|];
    assert MentionsAt(a + b, k, i);
  }

  lemma MentionsInRight(a: string, b: string, k: string)
    requires Mentions(b, k)
    ensures Mentions(a + b, k)
  {
    var i :| MentionsAt(b, k, i);
    assert (a + b)[|a| + i..|a| + i + |k|] == b[i..i + |k|];
    assert MentionsAt(a + b, k, |a| + i);
  }

  /** A string key as Python prints it inside a list (keys hold no quote characters). */
  function Quote(k: string): string
  {
    "'" + k + "'"
  }

  /** The items of a printed list of strings, separated by ", ". */
  function QuotedItems(items: seq<string>): string
    decreases |items|
  {
    if |items| == 0 then ""
    else if |items| == 1 then Quote(items[0])
    else Quote(items[0]) + ", " + QuotedItems(items[1..])
  }

  /** `str(items)` for a list of strings. */
  function ListRepr(items: seq<string>): string
  {
    "[" + QuotedItems(items) + "]"
  }

  lemma {:induction false} QuotedItemsMentionsEach(items: seq<string>)
    ensures forall i :: 0 <= i < |items| ==> Mentions(QuotedItems(items), Quote(items[i]))
    decreases |items|
  {
    if |items| == 1 {
      assert MentionsAt(QuotedItems(items), Quote(items[0]), 0);
    } else if |items| > 1 {
      var head := Quote(items[0]);
      var rest := QuotedItems(items[1..]);
      assert QuotedItems(items) == head + (", " + rest);
      assert (head + (", " + rest))[0..|head|] == head;
      assert MentionsAt(QuotedItems(items), head, 0);
      QuotedItemsMentionsEach(items[1..]);
      forall i | 1 <= i < |items|
        ensures Mentions(QuotedItems(items), Quote(items[i]))
      {
        assert items[1..][i - 1] == items[i];
        MentionsInRight(", ", rest, Quote(items[i]));
        MentionsInRight(head, ", " + rest, Quote(items[i]));
      }
    }
  }

  /** The printed list names every one of its items, each in quotes. */
  lemma {:induction false} ListReprMentionsEach(items: seq<string>)
    ensures forall i :: 0 <= i < |items| ==> Mentions(ListRepr(items), Quote(items[i]))
  {
    QuotedItemsMentionsEach(items);
    forall i | 0 <= i < |items|
      ensures Mentions(ListRepr(items), Quote(items[i]))
    {
      MentionsInRight("[", QuotedItems(items), Quote(items[i]));
      MentionsInLeft("[" + QuotedItems(items), "]", Quote(items[i]));
    }
  }
}
