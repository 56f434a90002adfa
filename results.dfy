/** Outcomes of the Python operations in the model: a value, or the exception the
    interpreter would raise instead of returning one. */
module Results {

  /** The built-in exception classes the modelled code can raise. */
  datatype Error =
    | ValueError         // int() of a string that is not an integer literal, list.index of a missing item
    | IndexError         // indexing a list or string past its end, random.choice of an empty list
    | KeyError           // bpy.data.objects[name] for a name the scene does not hold
    | ZeroDivisionError  // dividing by zero

  datatype Result<T> = Ok(value: T) | Err(error: Error)

  /** The outcome of a procedure that returns nothing: it finished, or it raised. */
  datatype Outcome = Pass | Fail(error: Error)

  datatype Option<T> = None | Some(value: T)
}
