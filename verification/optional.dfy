/** The optional value used wherever the app holds an optional reference
    (`selectedNode`, `hittedNode`, a node's `parent`, a node's `name`). */
module Optional {

  datatype Option<+T> = None | Some(value: T)
}
