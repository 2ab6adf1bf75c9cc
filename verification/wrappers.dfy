/** Optional values, used for the one persisted session slot and for the
    global chart reference (which JavaScript leaves `undefined` until the
    first chart is drawn). */
module Wrappers {

  datatype Option<+T> = None | Some(value: T)
}
