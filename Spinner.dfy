/** The spinner's own size normalisation and the double normalisation it applies. */
module Spinner {
  import opened Common
  import opened Size

  /** `DEFAULT_SIZE`: the medium size, a number. */
  const DEFAULT_SIZE: SizeInput := Number(Finite(MEDIUM))

  /**
   * The spinner's `normalizeSize`: a finite number, else a known name, else the fallback.
   * It agrees with the shared utility on every input and fallback.
   */
  function NormalizeSize(size: SizeInput, fallback: Num := Finite(MEDIUM)): (r: Num)
    ensures r == Size.NormalizeSize(size, fallback)
  {
    assert size.Name? && size.name == "" ==> NamedSize(size.name).None?;
    if size.Number? && size.n.Finite? then size.n
    else if size.Name? && NamedSize(size.name).Some? then Finite(NamedSize(size.name).value)
    else fallback
  }

  /** `fallback`: `DEFAULT_SIZE` when it is a number, which it is. */
  function Fallback(): (r: Num)
    ensures r == Finite(MEDIUM)
  {
    if DEFAULT_SIZE.Number? then DEFAULT_SIZE.n else Finite(MEDIUM)
  }

  /** The width and height `Spinner` renders: the size normalised, then normalised again. */
  function Dimension(size: SizeInput): (r: Num)
    ensures r.Finite?
    ensures r == NormalizeSize(size, Fallback())
  {
    var given := if size.Absent? then DEFAULT_SIZE else size;
    var normalizedSize := NormalizeSize(given, Fallback());
    NormalizeSize(Number(normalizedSize), Fallback())
  }

  /** Normalising twice is normalising once whenever the fallback is finite. */
  lemma NormalizeTwice(size: SizeInput, fallback: Num)
    requires fallback.Finite?
    ensures NormalizeSize(Number(NormalizeSize(size, fallback)), fallback) == NormalizeSize(size, fallback)
  {
  }

  /** With a non-finite fallback the second pass can change the result. */
  lemma NormalizeTwiceNeedsFiniteFallback()
    ensures NormalizeSize(Number(NormalizeSize(Absent, NonFinite)), Finite(1)) != NormalizeSize(Absent, NonFinite)
  {
  }

  /** The default is medium, and so is anything the spinner cannot read. */
  lemma DefaultIsMedium()
    ensures Dimension(Absent) == Finite(28)
    ensures Dimension(Name("huge")) == Finite(28)
    ensures Dimension(Number(NonFinite)) == Finite(28)
    ensures Dimension(Name("large")) == Finite(48)
  {
  }
}
