/** The small helpers of `cna_sim/utils.py`: `None` coalescing, the `assert`
    wrapper, the millisecond-suffix parser, context injection into component
    factories, the argument check of the log-normal sampler and the
    `Distribution` record built from configuration. */
module Utils {
  import opened Common

  /** `default_if_none`: the value itself unless it is None. */
  function DefaultIfNone<T>(value: Option<T>, default: T): (r: T)
    ensures value.None? ==> r == default
    ensures value.Some? ==> r == value.value
  {
    match value
    case None => default
    case Some(v) => v
  }

  /** `not_none`: a failed `assert` on None, the value unchanged otherwise. */
  function NotNone<T>(value: Option<T>): (r: PyResult<T>)
    ensures r.Raise? <==> value.None?
    ensures r.Raise? ==> r.exception == AssertionError
    ensures r.Value? ==> value == Some(r.value)
  {
    match value
    case None => Raise(AssertionError)
    case Some(v) => Value(v)
  }

  /** A configuration scalar as YAML delivers it: nothing, a number or a text. */
  datatype PyScalar = PyNone | PyNum(x: real) | PyStr(s: string)

  /** `remove_m`: None stays None; a text ending in `m` is a number of
      thousandths ("500m" is 0.5); anything else goes through `float()`.
      `parse` stands for Python's `float()` on a text (None when it raises
      ValueError). The empty text raises IndexError, because `v[-1]` is read
      before anything else. */
  function RemoveM(v: PyScalar, parse: string -> Option<real>): (r: PyResult<Option<real>>)
    ensures v.PyNone? ==> r == Value(None)
    ensures v.PyNum? ==> r == Value(Some(v.x))
    ensures v == PyStr("") ==> r == Raise(IndexError)
    ensures v.PyStr? && |v.s| > 0 && v.s[|v.s| - 1] == 'm' ==>
              r == (match parse(v.s[..|v.s| - 1])
                    case Some(x) => Value(Some(x / 1000.0))
                    case None => Raise(ValueError))
    ensures v.PyStr? && |v.s| > 0 && v.s[|v.s| - 1] != 'm' ==>
              r == (match parse(v.s)
                    case Some(x) => Value(Some(x))
                    case None => Raise(ValueError))
    ensures r.Value? && r.value.None? ==> v.PyNone?
  {
    match v
    case PyNone => Value(None)
    case PyNum(x) => Value(Some(x))
    case PyStr(s) =>
      if |s| == 0 then Raise(IndexError)
      else
        var text := if s[|s| - 1] == 'm' then s[..|s| - 1] else s;
        var scale := if s[|s| - 1] == 'm' then 1000.0 else 1.0;
        match parse(text)
        case Some(x) => Value(Some(x / scale))
        case None => Raise(ValueError)
  }

  /** The suffix `m` divides by one thousand: "<text>m" is a thousandth of
      what "<text>" is, whenever "<text>" itself does not end in `m`. */
  lemma RemoveMThousandths(text: string, parse: string -> Option<real>)
    requires |text| > 0 && text[|text| - 1] != 'm'
    requires parse(text).Some?
    ensures RemoveM(PyStr(text), parse).Value?
    ensures RemoveM(PyStr(text + "m"), parse) ==
            Value(Some(RemoveM(PyStr(text), parse).value.value / 1000.0))
  {
    assert (text + "m")[..|text + "m"| - 1] == text;
  }

  /** A component factory as `inject_context` sees it: a plain function that
      still has to be applied to the context arguments, or an object that is
      used as it is. */
  datatype Injectable<!A, T> = PlainFunction(make: A -> T) | Ready(obj: T)

  /** `inject_context`: call a plain function with the arguments, return
      anything else unchanged. */
  function InjectContext<A, T>(gen: Injectable<A, T>, args: A): (r: T)
    ensures gen.PlainFunction? ==> r == gen.make(args)
    ensures gen.Ready? ==> r == gen.obj
  {
    match gen
    case PlainFunction(make) => make(args)
    case Ready(obj) => obj
  }

  /** The argument check at the head of `fit_lognormal`: ValueError exactly
      when the mean is not positive or the deviation is negative. The
      sampling that follows it is not part of this model. */
  function FitLognormalCheck(mean: real, std: real): (r: Option<PyException>)
    ensures r.Some? <==> (mean <= 0.0 || std < 0.0)
    ensures r.Some? ==> r.value == ValueError
  {
    if mean <= 0.0 || std < 0.0 then Some(ValueError) else None
  }

  /** `Distribution(mean, std, dis)`: mean and deviation go through
      `remove_m`, so each may end up None. */
  datatype Distribution = Distribution(mean: Option<real>, std: Option<real>, dis: string)

  /** The JSON form of a distribution; an absent key takes the constructor's
      default (mean 0, std 0, dis 'lognormal'). */
  datatype DistributionJson = DistributionJson(mean: Option<PyScalar>, std: Option<PyScalar>, dis: Option<string>)

  /** `Distribution.from_json`, i.e. `Distribution(**j)`. */
  function DistributionFromJson(j: DistributionJson, parse: string -> Option<real>): (r: PyResult<Distribution>)
    ensures r.Value? <==> RemoveM(DefaultIfNone(j.mean, PyNum(0.0)), parse).Value? &&
                          RemoveM(DefaultIfNone(j.std, PyNum(0.0)), parse).Value?
    ensures r.Value? ==> r.value.mean == RemoveM(DefaultIfNone(j.mean, PyNum(0.0)), parse).value
    ensures r.Value? ==> r.value.std == RemoveM(DefaultIfNone(j.std, PyNum(0.0)), parse).value
    ensures r.Value? ==> r.value.dis == DefaultIfNone(j.dis, "lognormal")
    ensures j.mean.None? && j.std.None? ==> r.Value? && r.value.mean == Some(0.0) && r.value.std == Some(0.0)
  {
    match RemoveM(DefaultIfNone(j.mean, PyNum(0.0)), parse)
    case Raise(e) => Raise(e)
    case Value(mean) =>
      match RemoveM(DefaultIfNone(j.std, PyNum(0.0)), parse)
      case Raise(e) => Raise(e)
      case Value(std) => Value(Distribution(mean, std, DefaultIfNone(j.dis, "lognormal")))
  }
}
