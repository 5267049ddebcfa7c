/** The `None`/`Some` wrapper used for the engine's optional resources and for
    facet selections that may be absent. */
module Optional {

  datatype Option<+T> = None | Some(value: T)
}
