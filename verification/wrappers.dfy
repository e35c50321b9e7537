/** Optional values, used for the host's "may be absent" references
    (the editor's text, the scene's sequence editor, the active strip). */
module Wrappers {

  datatype Option<+T> = None | Some(value: T)
}
