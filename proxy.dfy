/** The Proxy pattern of Patterns/Structural/proxy.js: a `ProxyImage` stands
    in for a `RealImage` and creates it, which loads the image from disk, only
    the first time it is displayed. */
module Proxy {
  import opened Output

  function LoadLine(filename: string): string {
    "Loading image from disk: " + filename
  }

  function DisplayLine(filename: string): string {
    "Displaying image: " + filename
  }

  /** A load line is never mistaken for a display line, whatever the names. */
  lemma LoadLineIsNotDisplayLine(f: string, g: string)
    ensures LoadLine(f) != DisplayLine(g)
  {
    assert LoadLine(f)[0] == 'L';
    assert DisplayLine(g)[0] == 'D';
  }

  /** The real subject: constructing one loads the image. */
  class RealImage {
    const filename: string

    constructor (filename: string, console: Console)
      modifies console
      ensures this.filename == filename
      ensures console.lines == old(console.lines) + [LoadLine(filename)]
    {
      this.filename := filename;
      new;
      LoadFromDisk(console);
    }

    method LoadFromDisk(console: Console)
      modifies console
      ensures console.lines == old(console.lines) + [LoadLine(filename)]
    {
      console.Log(LoadLine(filename));
    }

    method Display(console: Console)
      modifies console
      ensures console.lines == old(console.lines) + [DisplayLine(filename)]
    {
      console.Log(DisplayLine(filename));
    }
  }

  /** Lines printed by `n` consecutive `display` calls on a proxy for
      `filename`; `loaded` says whether the real image already exists. */
  function DisplayTrace(filename: string, loaded: bool, n: nat): seq<string>
    decreases n
  {
    if n == 0 then []
    else (if loaded then [] else [LoadLine(filename)]) + [DisplayLine(filename)]
         + DisplayTrace(filename, true, n - 1)
  }

  /** Number of times `line` appears in `lines`. */
  function Count(lines: seq<string>, line: string): nat {
    if lines == [] then 0
    else (if lines[0] == line then 1 else 0) + Count(lines[1..], line)
  }

  /** However many times a proxy is displayed, the image is loaded at most
      once: exactly once when it was not loaded yet and displayed at all. */
  lemma {:induction false} LoadedAtMostOnce(filename: string, loaded: bool, n: nat)
    ensures Count(DisplayTrace(filename, loaded, n), LoadLine(filename))
            == if loaded || n == 0 then 0 else 1
    decreases n
  {
    if n > 0 {
      LoadedAtMostOnce(filename, true, n - 1);
      LoadLineIsNotDisplayLine(filename, filename);
      var rest := DisplayTrace(filename, true, n - 1);
      if loaded {
        assert DisplayTrace(filename, loaded, n) == [DisplayLine(filename)] + rest;
        assert ([DisplayLine(filename)] + rest)[1..] == rest;
      } else {
        assert DisplayTrace(filename, loaded, n) == [LoadLine(filename), DisplayLine(filename)] + rest;
        assert DisplayTrace(filename, loaded, n)[1..] == [DisplayLine(filename)] + rest;
      }
    }
  }

  /** Every `display` call prints exactly one display line. */
  lemma {:induction false} DisplayedEveryTime(filename: string, loaded: bool, n: nat)
    ensures Count(DisplayTrace(filename, loaded, n), DisplayLine(filename)) == n
    decreases n
  {
    if n > 0 {
      DisplayedEveryTime(filename, true, n - 1);
      LoadLineIsNotDisplayLine(filename, filename);
      var rest := DisplayTrace(filename, true, n - 1);
      if loaded {
        assert DisplayTrace(filename, loaded, n) == [DisplayLine(filename)] + rest;
        assert ([DisplayLine(filename)] + rest)[1..] == rest;
      } else {
        assert DisplayTrace(filename, loaded, n) == [LoadLine(filename), DisplayLine(filename)] + rest;
        assert DisplayTrace(filename, loaded, n)[1..] == [DisplayLine(filename)] + rest;
      }
    }
  }

  /** Displaying `m` times and then `n` times prints what displaying `m + n`
      times prints: the proxy's state is carried over between calls. */
  lemma {:induction false} DisplayTraceAppend(filename: string, loaded: bool, m: nat, n: nat)
    ensures DisplayTrace(filename, loaded, m) + DisplayTrace(filename, loaded || m > 0, n)
            == DisplayTrace(filename, loaded, m + n)
    decreases m
  {
    if m > 0 {
      DisplayTraceAppend(filename, true, m - 1, n);
    }
  }

  /** The proxy: holds the file name and, once displayed, the real image. */
  class ProxyImage {
    const filename: string
    var realImage: RealImage?

    /** The real image, once created, is the one for this proxy's file. */
    predicate Valid()
      reads this
    {
      realImage != null ==> realImage.filename == filename
    }

    predicate Loaded()
      reads this
    {
      realImage != null
    }

    /** A new proxy holds no real image and loads nothing. */
    constructor (filename: string)
      ensures this.filename == filename
      ensures realImage == null
      ensures Valid()
    {
      this.filename := filename;
      realImage := null;
    }

    /** Creates the real image on the first call only, then displays it. */
    method Display(console: Console)
      requires Valid()
      modifies this, console
      ensures Valid() && Loaded()
      ensures old(realImage) == null ==> fresh(realImage)
      ensures old(realImage) != null ==> realImage == old(realImage)
      ensures console.lines == old(console.lines) + DisplayTrace(filename, old(Loaded()), 1)
    {
      if realImage == null {
        realImage := new RealImage(filename, console);
      }
      realImage.Display(console);
    }

    /** `n` consecutive `display` calls. */
    method DisplayRepeatedly(console: Console, n: nat)
      requires Valid()
      modifies this, console
      ensures Valid() && Loaded() == (old(Loaded()) || n > 0)
      ensures old(realImage) != null ==> realImage == old(realImage)
      ensures console.lines == old(console.lines) + DisplayTrace(filename, old(Loaded()), n)
    {
      var i := 0;
      while i < n
        invariant 0 <= i <= n
        invariant Valid() && Loaded() == (old(Loaded()) || i > 0)
        invariant old(realImage) != null ==> realImage == old(realImage)
        invariant console.lines == old(console.lines) + DisplayTrace(filename, old(Loaded()), i)
      {
        ghost var before := console.lines;
        Display(console);
        DisplayTraceAppend(filename, old(Loaded()), i, 1);
        assert console.lines == before + DisplayTrace(filename, old(Loaded()) || i > 0, 1);
        i := i + 1;
      }
    }
  }

  /** The demo for a given file: a new proxy displayed twice. */
  method RunProxyDemo(filename: string) returns (lines: seq<string>)
    ensures lines == ["Structural : Proxy pattern executed..",
                      LoadLine(filename), DisplayLine(filename), DisplayLine(filename),
                      "****************************"]
  {
    var console := new Console();
    console.Log("Structural : Proxy pattern executed..");
    var image := new ProxyImage(filename);
    image.Display(console);
    image.Display(console);
    console.Log("****************************");
    lines := console.lines;
  }

  method ExecutePattern() returns (lines: seq<string>)
    ensures lines == ["Structural : Proxy pattern executed..",
                      LoadLine("test_image.jpg"), DisplayLine("test_image.jpg"),
                      DisplayLine("test_image.jpg"), "****************************"]
  {
    lines := RunProxyDemo("test_image.jpg");
  }
}
