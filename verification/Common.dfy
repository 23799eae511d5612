/** An optional value, and the larger and smaller of two numbers. */
module Common {

  datatype Option<+T> = None | Some(value: T)

  function Max(a: real, b: real): real {
    if a < b then b else a
  }

  function Min(a: real, b: real): real {
    if a < b then a else b
  }
}
