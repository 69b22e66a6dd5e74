/** CSV cells as the ingestion scripts read them with pandas, and the Python
    conversions applied to them. */
module Cells {
  import opened Wrappers
  import opened Text

  /** A cell: missing (NaN), or its text (`str(x)` of the value pandas read). */
  datatype Cell = Missing | Text(text: string)

  /** Python's `float(s)` on text; `None` where it raises. */
  type FloatParser = string -> Option<real>

  /** `str(x)`: a missing cell prints as "nan". */
  function Str(c: Cell): (s: string)
    ensures c.Text? ==> s == c.text
  {
    match c
    case Missing => "nan"
    case Text(t) => t
  }

  /** `x.strip() if isinstance(x, str) else x`, applied to every cell. */
  function StripCell(c: Cell): (r: Cell)
    ensures r.Missing? <==> c.Missing?
  {
    match c
    case Missing => Missing
    case Text(t) => Text(Strip(t))
  }

  /** `float(x)` on a cell: NaN stays NaN (`None`), text is parsed or raises. */
  function FloatCell(c: Cell, parse: FloatParser): (r: Result<Option<real>>)
    ensures c.Missing? ==> r == Success(None)
    ensures c.Text? ==> (r.Failure? <==> parse(c.text).None?)
    ensures c.Text? && parse(c.text).Some? ==> r == Success(parse(c.text))
  {
    match c
    case Missing => Success(None)
    case Text(t) => if parse(t).Some? then Success(Some(parse(t).value)) else Failure("could not convert string to float")
  }

  /** `to_float_or_none`: missing, blank or unparsable text gives `None`. */
  function ToFloatOrNone(c: Cell, parse: FloatParser): (r: Option<real>)
    ensures c.Missing? ==> r.None?
    ensures c.Text? && Strip(c.text) == "" ==> r.None?
    ensures r.Some? ==> c.Text? && Strip(c.text) != "" && parse(Strip(c.text)) == r
    ensures c.Text? && Strip(c.text) != "" ==> r == parse(Strip(c.text))
  {
    match c
    case Missing => None
    case Text(t) =>
      var s := Strip(t);
      if s == "" then None else parse(s)
  }

  /** Padding around the text does not change the value. */
  lemma ToFloatOrNoneIgnoresPadding(t: string, parse: FloatParser)
    ensures ToFloatOrNone(Text(" " + t + " "), parse) == ToFloatOrNone(Text(t), parse)
  {
    StripPadding(t);
  }

  lemma StripPadding(t: string)
    ensures Strip(" " + t + " ") == Strip(t)
  {
    assert StripLeft(" " + t + " ") == StripLeft(t + " ") by {
      assert (" " + t + " ")[1..] == t + " ";
    }
    StripLeftAppendSpace(t);
    StripRightSpace(StripLeft(t));
  }

  /** Removing leading space before a trailing space. */
  lemma {:induction false} StripLeftAppendSpace(t: string)
    ensures StripLeft(t + " ") == StripLeft(t) + " " || (StripLeft(t) == [] && StripLeft(t + " ") == [])
  {
    if t != [] {
      if IsSpace(t[0]) {
        assert (t + " ")[1..] == t[1..] + " ";
        StripLeftAppendSpace(t[1..]);
      }
    }
  }

  lemma StripRightSpace(u: string)
    ensures StripRight(u + " ") == StripRight(u)
  {
    assert (u + " ")[..|u|] == u;
  }
}
