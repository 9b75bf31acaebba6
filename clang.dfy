/**
 * What the glue generators read from libclang: a tree of entities, each with the handful of
 * attributes the generators query.
 */
module Clang {
  import opened Prelude

  /** The entity kinds the generators distinguish; every other kind is `OtherKind`. */
  datatype EntityKind =
    | Namespace | ClassDecl | StructDecl | TypedefDecl | Method | AccessSpecifier | Destructor
    | BaseSpecifier | EnumDecl | Constructor | FieldDecl | OtherKind

  /** A method argument: the display name of its type, and its name. */
  datatype Argument = Argument(typ: string, name: string)

  /**
   * An entity: its kind, name, children and source file, and, for methods, whether it is
   * virtual or const, the display name of its result type, its arguments and its brief comment.
   */
  datatype Entity = Entity(
    kind: EntityKind,
    name: string,
    children: seq<Entity>,
    file: Option<string>,
    isVirtual: bool,
    isConst: bool,
    resultType: string,
    arguments: seq<Argument>,
    commentBrief: Option<string>)
}
