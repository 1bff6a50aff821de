/** Parameter values, samples and the error kinds the conversion code raises. */
module Values {

  /** A scalar parameter value: a float, a boolean flag, a string (e.g. a waveform
      approximant) or None. */
  datatype Value = Num(x: real) | Bool(b: bool) | Str(s: string) | Null

  /** A single parameter point: parameter name to value. */
  type Sample = map<string, Value>

  /** The exception kinds the modelled code can raise. */
  datatype Error =
    | KeyError(key: string)
    | TypeError
    | ZeroDivision
    | ValueError(msg: string)
    | ReconstructionFailure

  /** A Python argument that may be None. */
  datatype Option<+T> = None | Some(value: T)

  datatype Result<+T> = Ok(value: T) | Err(error: Error) {
    predicate IsFailure() { Err? }

    function PropagateFailure<U>(): Result<U>
      requires Err?
    {
      Err(error)
    }

    function Extract(): T
      requires Ok?
    {
      value
    }
  }

  /** `sample[key]`: a KeyError naming the key when it is absent. */
  function Get(s: Sample, key: string): (r: Result<Value>)
    ensures r.Ok? <==> key in s
    ensures r.Ok? ==> r.value == s[key]
    ensures r.Err? ==> r.error == KeyError(key)
  {
    if key in s then Ok(s[key]) else Err(KeyError(key))
  }

  /** Arithmetic on a value: only floats take part, anything else is a TypeError. */
  function AsReal(v: Value): (r: Result<real>)
    ensures r.Ok? <==> v.Num?
    ensures r.Ok? ==> r.value == v.x
    ensures r.Err? ==> r.error == TypeError
  {
    if v.Num? then Ok(v.x) else Err(TypeError)
  }

  /** key holds a float. */
  predicate HasReal(o: Sample, key: string)
  {
    key in o && o[key].Num?
  }

  /** Every key of s is in o with the value it has in s. */
  predicate Extends(o: Sample, s: Sample)
  {
    forall key :: key in s ==> key in o && o[key] == s[key]
  }

  /** Every key of s outside `written` is in o with the value it has in s. */
  predicate KeepsOthers(o: Sample, s: Sample, written: set<string>)
  {
    forall key :: key in s && key !in written ==> key in o && o[key] == s[key]
  }

  /** Look a key up and use it as a float. */
  function GetReal(s: Sample, key: string): (r: Result<real>)
    ensures r.Ok? <==> key in s && s[key].Num?
    ensures r.Ok? ==> r.value == s[key].x
    ensures key !in s ==> r == Err(KeyError(key))
    ensures key in s && !s[key].Num? ==> r == Err(TypeError)
  {
    var v :- Get(s, key);
    AsReal(v)
  }

  /** Python float division: ZeroDivisionError when the divisor is zero. */
  function Div(a: real, b: real): (r: Result<real>)
    ensures r.Ok? <==> b != 0.0
    ensures r.Ok? ==> r.value * b == a
  {
    if b == 0.0 then Err(ZeroDivision) else Ok(a / b)
  }

  function Min(a: int, b: int): int
  {
    if a <= b then a else b
  }
}
