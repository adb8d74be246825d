/** The result algebra of the library (the `Try` class nested in Future.java):
    a promise's outcome is either a success carrying a value or a failure
    carrying an error, and an error is never null. */
module Tries {

  /** The stand-in for Java's nullable references. */
  datatype Option<+T> = None | Some(value: T)

  /** A `Throwable`. A value of this type is never null: the absent error is
      `None` of `Option<Throwable>`. */
  datatype Throwable = Throwable(code: nat)

  /** The values promises carry. Promise.java stores every value as an Object
      (mapped children are `Promise<Object>`), so one dynamically typed domain
      stands for them: `Null` is Java's null (the result of a `Future<Void>`),
      `Items` the list a `sequence` completes with. */
  datatype Value = Null | Int(n: int) | Items(elems: seq<Value>)

  datatype Try<+V> = Success(value: V) | Failure(error: Throwable)

  /** `Try.create(value, error)`: a failure exactly when an error is present,
      otherwise a success with the given value (which may be `Null`). */
  function Create<V>(value: V, error: Option<Throwable>): (t: Try<V>)
    ensures t.Failure? <==> error.Some?
    ensures t.Failure? ==> Some(t.error) == error
    ensures t.Success? ==> t.value == value
  {
    if error.Some? then Failure(error.value) else Success(value)
  }

  /** `Success.map` and `Failure.map`: a success is transformed, a failure is
      passed through without applying `fn`. */
  function Map<V, T>(t: Try<V>, fn: V -> T): (r: Try<T>)
    ensures r.Success? <==> t.Success?
    ensures t.Success? ==> r.value == fn(t.value)
    ensures t.Failure? ==> r.error == t.error
  {
    match t
    case Success(v) => Success(fn(v))
    case Failure(e) => Failure(e)
  }

  /** The error a try carries, as the nullable field `error` of a promise
      holds it. */
  function ErrorOf<V>(t: Try<V>): (e: Option<Throwable>)
    ensures e.Some? <==> t.Failure?
    ensures e.Some? ==> e.value == t.error
  {
    if t.Failure? then Some(t.error) else None
  }

  /** Splitting a try into a value and a nullable error and re-creating it
      gives the same try back. */
  lemma CreateOfParts<V>(t: Try<V>, filler: V)
    ensures Create(if t.Success? then t.value else filler, ErrorOf(t)) == t
  {
  }

  /** `map` is a functor: mapping twice is mapping the composition. */
  lemma MapCompose<U, V, W>(t: Try<U>, f: U -> V, g: V -> W)
    ensures Map(Map(t, f), g) == Map(t, x => g(f(x)))
  {
  }
}
