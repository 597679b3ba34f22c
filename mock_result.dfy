/** `MockResult`: what a deferred call returns in test mode, where the call
    runs at once and its return value is kept for `get` and `wait`. */
module MockResults {
  import opened Values

  /** A stand-in for a broker's async result. `id` is the textual uuid the
      constructor draws; it is a parameter here. */
  datatype MockResult = MockResult(id: string, result: Value)

  /** `MockResult(result)`, given the uuid text it would draw. */
  function NewMockResult(id: string, result: Value): (m: MockResult)
    ensures m.id == id && m.result == result
  {
    MockResult(id, result)
  }

  /** `get(*args, **kwargs)`: whatever the arguments (a timeout, `propagate`),
      the stored result. */
  function Get(m: MockResult, args: seq<Value>, kwargs: Dict): (r: Value)
    ensures r == m.result
  {
    m.result
  }

  /** `wait` is the same method as `get`. */
  function Wait(m: MockResult, args: seq<Value>, kwargs: Dict): (r: Value)
    ensures r == Get(m, args, kwargs) && r == m.result
  {
    Get(m, args, kwargs)
  }

  /** The value a mock result is built with is the value `get` and `wait`
      return, for any arguments. */
  lemma GetReturnsStored(id: string, result: Value, args: seq<Value>, kwargs: Dict)
    ensures Get(NewMockResult(id, result), args, kwargs) == result
    ensures Wait(NewMockResult(id, result), args, kwargs) == result
  {
  }

  /** `get` does not depend on its arguments, and `wait` agrees with it. */
  lemma GetIgnoresArguments(m: MockResult, args: seq<Value>, kwargs: Dict, args': seq<Value>, kwargs': Dict)
    ensures Get(m, args, kwargs) == Get(m, args', kwargs')
    ensures Wait(m, args, kwargs) == Get(m, args', kwargs')
  {
  }
}
