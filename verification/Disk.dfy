/** A file replaced as a whole: temporary file, flush, rename, flush of the directory. */
module Disk {

  /** What a restarted process reads, and what a power loss may leave instead. */
  datatype File<!T(!new)> = File(visible: T, survivors: iset<T>)

  /** How far one replacement gets. A rename whose directory entry is not flushed is
      visible at once and may still be lost. */
  datatype Fault = NoFault | BeforeRename | AfterRename

  ghost predicate Sound<T(!new)>(f: File<T>) {
    f.visible in f.survivors
  }

  function Replace<T(!new)>(f: File<T>, content: T, fault: Fault): (r: (File<T>, bool)) {
    match fault
    case NoFault => (File(content, iset{content}), true)
    case BeforeRename => (f, false)
    case AfterRename => (File(content, f.survivors + iset{content}), false)
  }

  /** A crash of the process loses nothing; a power loss leaves any survivor. */
  ghost predicate AfterCrash<T(!new)>(f: File<T>, f': File<T>) {
    f' == f || (f'.visible in f.survivors && f'.survivors == iset{f'.visible})
  }

  /** The directory entry is on disk: no power loss can change what is read. */
  ghost predicate Flushed<T(!new)>(f: File<T>) {
    f.survivors == iset{f.visible}
  }

  /** A reported replacement is what every later crash leaves, until the next one. */
  lemma ReplaceDurable<T(!new)>(f: File<T>, content: T, fault: Fault, g: File<T>)
    requires Sound(f)
    ensures var (f', ok) := Replace(f, content, fault);
            && Sound(f')
            && (ok ==> (AfterCrash(f', g) ==> g.visible == content))
            && (!ok && AfterCrash(f', g) ==> g.visible == content || g.visible in f.survivors)
  {
  }
}
