/** The two ways the server forms file paths: `path.join(__dirname, name)` and multer's upload path. */
module Paths {

  /** An absolute POSIX path. */
  predicate IsAbsolute(p: string)
  {
    p != [] && p[0] == '/'
  }

  /** What `path.join(dir, name)` puts in front of `name` for an already normalized `dir`. */
  function DirPrefix(dir: string): string
  {
    if dir == [] then [] else if dir[|dir| - 1] == '/' then dir else dir + "/"
  }

  /**
   * `path.join(dir, name)` for a normalized directory (such as `__dirname`) and a
   * single file name without `/`, `.` or `..` segments.
   */
  function Join(dir: string, name: string): (p: string)
    ensures IsAbsolute(dir) ==> IsAbsolute(p)
  {
    DirPrefix(dir) + name
  }

  /** Within one directory, different names give different paths. */
  lemma JoinInjective(dir: string, a: string, b: string)
    ensures Join(dir, a) == Join(dir, b) <==> a == b
  {
    var p := DirPrefix(dir);
    if Join(dir, a) == Join(dir, b) {
      assert a == (p + a)[|p|..];
      assert b == (p + b)[|p|..];
    }
  }

  /** Where multer (`dest: 'uploads/'`) stores an upload under the name it generated. */
  function UploadPath(name: string): (p: string)
    ensures !IsAbsolute(p)
  {
    "uploads/" + name
  }

  /** An upload path is relative, so it never coincides with a path under an absolute directory. */
  lemma UploadNotUnder(dir: string, name: string, upload: string)
    requires IsAbsolute(dir)
    ensures Join(dir, name) != UploadPath(upload)
  {
  }
}
