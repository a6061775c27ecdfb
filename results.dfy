/** Outcome types shared by the layer constructors: a raised Python exception
    becomes an `Err`, a constructed layer an `Ok`. */
module Results {

  datatype Result<T, E> = Ok(value: T) | Err(error: E)

  datatype Option<T> = None | Some(value: T)
}
