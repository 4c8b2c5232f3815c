/** Component sizes: a number, one of three names, or nothing. */
module Size {
  import opened Common

  /** A JavaScript number as far as sizes care: finite (integral here) or not. */
  datatype Num = Finite(value: int) | NonFinite

  /** `number | NamedSize | undefined`; a name is any string at run time. */
  datatype SizeInput = Absent | Number(n: Num) | Name(name: string)

  const SMALL: int := 20
  const MEDIUM: int := 28
  const LARGE: int := 48

  /** `NAMED_SIZE_MAP[name]` when that is a number. */
  function NamedSize(name: string): (r: Option<int>)
    ensures r.Some? <==> name in {"small", "medium", "large"}
    ensures r == Some(SMALL) <==> name == "small"
    ensures r == Some(MEDIUM) <==> name == "medium"
    ensures r == Some(LARGE) <==> name == "large"
  {
    if name == "small" then Some(SMALL)
    else if name == "medium" then Some(MEDIUM)
    else if name == "large" then Some(LARGE)
    else None
  }

  /** `normalizeSize(size, fallback)` of the size utilities; the default fallback is medium. */
  function NormalizeSize(size: SizeInput, fallback: Num := Finite(MEDIUM)): (r: Num)
    ensures size.Number? && size.n.Finite? ==> r == size.n
    ensures size.Name? && NamedSize(size.name).Some? ==> r == Finite(NamedSize(size.name).value)
    ensures size.Absent? || (size.Number? && size.n.NonFinite?) || (size.Name? && NamedSize(size.name).None?)
      ==> r == fallback
  {
    match size
    case Number(n) => if n.Finite? then n else fallback
    case Absent => fallback
    case Name(name) =>
      if name == "" then fallback
      else match NamedSize(name)
        case Some(mapped) => Finite(mapped)
        case None => fallback
  }
}
