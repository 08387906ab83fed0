/**
  The part of the file system the host manager touches, as a value: parsed JSON documents
  (the host files, whose byte layout from `json.dump(indent=4)` is not modelled), text files
  (the workflow logs) and directories.
 */
module Files {

  import opened Wrappers
  import opened Values

  /** p is the directory d itself or lies somewhere below it. */
  predicate Within(p: string, d: string) {
    p == d || (|d| < |p| && p[..|d|] == d && p[|d|] == '/')
  }

  datatype Fs = Fs(docs: map<string, Json>, texts: map<string, string>, dirs: set<string>)
  {
    /** `Path(d).mkdir(parents=True, exist_ok=True)`; the parents themselves are not tracked. */
    function Mkdir(d: string): Fs {
      this.(dirs := dirs + {d})
    }

    /** `json.dump` to p, replacing what was there. */
    function WriteDoc(p: string, c: Json): Fs {
      this.(docs := docs[p := c])
    }

    function TextOf(p: string): string {
      if p in texts then texts[p] else ""
    }

    /** `open(dir/name, "a").write(t)`: fails (None) when the directory does not exist. */
    function AppendIn(dir: string, name: string, t: string): (r: Option<Fs>)
      ensures r.Some? <==> dir in dirs
      ensures r.Some? ==> r.value.TextOf(dir + "/" + name) == TextOf(dir + "/" + name) + t
      ensures r.Some? ==> r.value.docs == docs && r.value.dirs == dirs
      ensures r.Some? ==> forall p :: p != dir + "/" + name ==> r.value.TextOf(p) == TextOf(p)
    {
      if dir in dirs then
        var p := dir + "/" + name;
        Some(this.(texts := texts[p := TextOf(p) + t]))
      else None
    }

    /** `if log.exists(): log.unlink()`. */
    function Unlink(p: string): (r: Fs)
      ensures p !in r.texts && r.docs == docs && r.dirs == dirs
      ensures forall q :: q != p ==> r.TextOf(q) == TextOf(q)
    {
      this.(texts := texts - {p})
    }

    /** `shutil.rmtree(d, ignore_errors=True)`: a missing directory is not an error. */
    function Rmtree(d: string): (r: Fs)
      ensures d !in dirs ==> r == this
      ensures d in dirs ==> forall p :: Within(p, d) ==> p !in r.docs && p !in r.texts && p !in r.dirs
      ensures forall p :: !Within(p, d) ==> r.TextOf(p) == TextOf(p) && (p in r.dirs <==> p in dirs)
      ensures forall p :: !Within(p, d) && p in docs ==> p in r.docs && r.docs[p] == docs[p]
    {
      if d !in dirs then this
      else Fs(map p | p in docs && !Within(p, d) :: docs[p],
              map p | p in texts && !Within(p, d) :: texts[p],
              set p | p in dirs && !Within(p, d))
    }
  }

  /** Two appends in a row leave the two texts in order: "a" then "b" gives "ab". */
  lemma AppendTwice(fs: Fs, dir: string, name: string, a: string, b: string)
    requires dir in fs.dirs
    ensures fs.AppendIn(dir, name, a).value.AppendIn(dir, name, b) == fs.AppendIn(dir, name, a + b)
  {
    var p := dir + "/" + name;
    var once := fs.AppendIn(dir, name, a).value;
    assert once.TextOf(p) == fs.TextOf(p) + a;
    assert fs.TextOf(p) + a + b == fs.TextOf(p) + (a + b);
    assert once.texts[p := once.TextOf(p) + b] == fs.texts[p := fs.TextOf(p) + (a + b)];
  }
}
