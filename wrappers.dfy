/** The one optional-value type the model needs: an entity field the mapping
    may leave unset, a key that may be missing, a parse that may fail. */
module Wrappers {

  datatype Option<+T> = None | Some(value: T)
}
