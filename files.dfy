/** An abstract filesystem: a map from path strings to directory or file
    nodes, with the behaviour of the four `fs` calls the handler makes
    (`mkdirSync` with `recursive`, `writeFileSync`, `existsSync`, `rmSync`
    with `recursive` and `force`). Only the errors that follow from the
    shape of the map are modelled; Node's error messages have the form
    "CODE: description, syscall 'path'". */
module Files {
  import opened Wrappers
  import opened JsValues
  import opened Paths

  /** What a file holds. `package.json` is modelled by its fields, and the
      rendered video by a marker. */
  datatype Contents =
    | Text(text: string)
    | Manifest(name: string, version: string, dependencies: seq<(string, string)>)
    | Mp4

  datatype Node = Dir | File(contents: Contents)

  type Tree = map<Path, Node>

  /** The JSON values that are not strings: the ones `writeFileSync`
      rejects as data. */
  type NonString = v: Json | !v.JString? witness JNull

  /** The argument `writeFileSync` receives as data: something it can write,
      or a JavaScript value it rejects. */
  datatype WriteArg = Accepted(contents: Contents) | Rejected(value: NonString)

  /** A system error as Node reports it. */
  function SysError(code: string, description: string, syscall: string, p: Path): Thrown {
    ErrorObject(code + ": " + description + ", " + syscall + " '" + p + "'")
  }

  /** How Node describes a rejected value at the end of its message. */
  function Received(v: NonString): string {
    match v
    case JNull => "Received null"
    case JBool(b) => "Received type boolean (" + (if b then "true" else "false") + ")"
    case JNumber(n) => "Received type number (" + IntToString(n) + ")"
    case JArray(_) => "Received an instance of Array"
    case JObject(_) => "Received an instance of Object"
  }

  /** The `ERR_INVALID_ARG_TYPE` TypeError `writeFileSync` throws for data
      that is not a string or a buffer. */
  const InvalidDataText: string :=
    "The \"data\" argument must be of type string or an instance of Buffer, TypedArray, or DataView. "

  function InvalidDataError(v: NonString): Thrown {
    ErrorObject(InvalidDataText + Received(v))
  }

  predicate HasFileAncestor(t: Tree, p: Path) {
    exists q :: q in Ancestors(p) && q in t && t[q].File?
  }

  /** A recursive `mkdirSync` of `p`: an existing directory is not an
      error; a file at `p` is EEXIST, a file above it ENOTDIR; otherwise `p`
      and every missing ancestor become directories. */
  function MkdirAll(t: Tree, p: Path): (r: Completion<Tree>)
    ensures r.Returned? <==> !(p in t && t[p].File?) && !HasFileAncestor(t, p)
    ensures r.Returned? ==> p in r.value && r.value[p] == Dir
    ensures r.Returned? ==> forall q :: q in Ancestors(p) ==> q in r.value && r.value[q].Dir?
    ensures r.Returned? ==> forall q :: q in t ==> q in r.value && r.value[q] == t[q]
    ensures r.Returned? ==> forall q :: q in r.value && q !in t ==> (q == p || q in Ancestors(p)) && r.value[q] == Dir
  {
    if p in t && t[p].File? then Threw(SysError("EEXIST", "file already exists", "mkdir", p))
    else if HasFileAncestor(t, p) then Threw(SysError("ENOTDIR", "not a directory", "mkdir", p))
    else Returned(t + map q | q in Ancestors(p) + {p} && q !in t :: Dir)
  }

  /** `writeFileSync` of a string into `name` under `dir`: the directory
      must exist (ENOENT) and be a directory (ENOTDIR), and the target must
      not be a directory (EISDIR); otherwise the file is created or
      replaced. */
  function Write(t: Tree, dir: Path, name: string, c: Contents): (r: Completion<Tree>)
    ensures r.Returned? <==> dir in t && t[dir] == Dir && !(Join(dir, name) in t && t[Join(dir, name)] == Dir)
    ensures r.Returned? ==> r.value.Keys == t.Keys + {Join(dir, name)}
    ensures r.Returned? ==> r.value[Join(dir, name)] == File(c)
    ensures r.Returned? ==> forall q :: q in t && q != Join(dir, name) ==> r.value[q] == t[q]
  {
    var p := Join(dir, name);
    if dir !in t then Threw(SysError("ENOENT", "no such file or directory", "open", p))
    else if t[dir].File? then Threw(SysError("ENOTDIR", "not a directory", "open", p))
    else if p in t && t[p].Dir? then Threw(SysError("EISDIR", "illegal operation on a directory", "open", p))
    else Returned(t[p := File(c)])
  }

  /** `writeFileSync` of any value into `name` under `dir`: a value that
      is not a string is rejected before the file is opened. */
  function WriteData(t: Tree, dir: Path, name: string, data: WriteArg): Completion<Tree>
  {
    match data
    case Accepted(c) => Write(t, dir, name, c)
    case Rejected(v) => Threw(InvalidDataError(v))
  }

  /** A recursive, forced `rmSync` of `d`: removes `d` and
      everything under it, and nothing else; a missing `d` is not an error. */
  function RemoveTree(t: Tree, d: Path): (r: Tree)
    ensures forall q :: q in r <==> q in t && !InSubtree(q, d)
    ensures forall q :: q in r ==> r[q] == t[q]
  {
    map q | q in t && !InSubtree(q, d) :: t[q]
  }

  /** The mutable filesystem the handler works on. */
  class FileSystem {
    var tree: Tree

    constructor (initial: Tree)
      ensures tree == initial
    {
      tree := initial;
    }

    /** Whether anything exists at `p`, as `existsSync` answers. */
    method Exists(p: Path) returns (b: bool)
      ensures b <==> p in tree
    {
      b := p in tree;
    }

    /** A recursive `mkdirSync` of `p`; `err` is what it throws. */
    method MakeDirectory(p: Path) returns (err: Option<Thrown>)
      modifies this
      ensures MkdirAll(old(tree), p).Returned? ==> err.None? && tree == MkdirAll(old(tree), p).value
      ensures MkdirAll(old(tree), p).Threw? ==> err == Some(MkdirAll(old(tree), p).thrown) && tree == old(tree)
    {
      match MkdirAll(tree, p)
      case Returned(t) => tree := t; err := None;
      case Threw(e) => err := Some(e);
    }

    /** `writeFileSync` of `data` into `name` under `dir`; `err` is what it throws. */
    method WriteFile(dir: Path, name: string, data: WriteArg) returns (err: Option<Thrown>)
      modifies this
      ensures WriteData(old(tree), dir, name, data).Returned? ==> err.None? && tree == WriteData(old(tree), dir, name, data).value
      ensures WriteData(old(tree), dir, name, data).Threw? ==> err == Some(WriteData(old(tree), dir, name, data).thrown) && tree == old(tree)
    {
      match WriteData(tree, dir, name, data)
      case Returned(t) => tree := t; err := None;
      case Threw(e) => err := Some(e);
    }

    /** A recursive, forced `rmSync` of `d`. */
    method Remove(d: Path)
      modifies this
      ensures tree == RemoveTree(old(tree), d)
    {
      tree := RemoveTree(tree, d);
    }

    /** A file the render engine writes at its output location: the video
      when it succeeds, or what it leaves there when it fails. */
    method PlaceArtifact(p: Path, c: Contents)
      modifies this
      ensures tree == old(tree)[p := File(c)]
    {
      tree := tree[p := File(c)];
    }
  }
}
