/**
 * The rotating file sink of logx (FileWriter). Records go to a file named
 * "<Prefix>.<key>.log" under Dir, where the key is the current instant
 * formatted with the layout of the storage type (minute, hour, day or
 * month buckets). When the key changes the open file is closed and the next
 * write opens the file of the new bucket. A retention sweep deletes the
 * plain files of Dir whose modification time lies more than MaxDay - 1
 * days before now.
 *
 * The operating system is a FileSystem object: a map from path to file
 * contents, a set of directories, and a fixed set of paths at which
 * creating a directory or opening a file fails. Instants used for
 * retention are nanosecond counts; instants used for bucket keys are
 * broken-down Moments.
 */
module FileSink {
  import opened GoStrings
  import opened GoTime

  datatype Option<T> = None | Some(value: T)

  const StorageTypeMinutes := 0
  const StorageTypeHour := 1
  const StorageTypeDay := 2
  const StorageTypeMonth := 3

  /** The time.Format layout of the bucket key of each storage type. */
  const Formats: map<int, string> := map[
    StorageTypeMinutes := "2006-01-02-15-04",
    StorageTypeHour := "2006-01-02-15",
    StorageTypeDay := "2006-01-02",
    StorageTypeMonth := "2006-01"
  ]

  /** Days a log file is kept when the options give no positive MaxDay. */
  const DefaultMaxDay := 7

  /** StorageType.getFileFormat: a map lookup, so an unknown storage type gives the empty layout. */
  function GetFileFormat(st: int): (layout: string)
    ensures layout != "" <==> st in Formats
  {
    if st in Formats then Formats[st] else ""
  }

  /** The four storage types, and only they, have a layout, and no two share one. */
  lemma FormatsTable()
    ensures forall st :: st in Formats <==> StorageTypeMinutes <= st <= StorageTypeMonth
    ensures forall a, b :: a in Formats && b in Formats && a != b ==> Formats[a] != Formats[b]
  {
    assert |Formats[0]| == 16 && |Formats[1]| == 13 && |Formats[2]| == 10 && |Formats[3]| == 7;
  }

  /** The bucket key initFile computes at instant t. */
  function FileDate(st: int, t: Moment): string {
    Format(GetFileFormat(st), t)
  }

  // The fields a bucket key is made of, most significant first: year, month, day, hour, minute.

  function Field(t: Moment, i: nat): nat {
    if i == 0 then t.year else if i == 1 then t.month else if i == 2 then t.day
    else if i == 3 then t.hour else t.minute
  }

  function Width(i: nat): nat {
    if i == 0 then 4 else 2
  }

  function Token(i: nat): string {
    if i == 0 then "2006" else if i == 1 then "01" else if i == 2 then "02" else if i == 3 then "15" else "04"
  }

  /** How many leading fields the key of a storage type holds; an unknown type holds none. */
  function Granularity(st: int): nat {
    if st == StorageTypeMinutes then 5 else if st == StorageTypeHour then 4
    else if st == StorageTypeDay then 3 else if st == StorageTypeMonth then 2 else 0
  }

  /** The layout made of the tokens of fields i to g - 1, separated by '-'. */
  function Layout(i: nat, g: nat): string
    decreases g - i
  {
    if i >= g then "" else if i + 1 == g then Token(i) else Token(i) + ("-" + Layout(i + 1, g))
  }

  /** Fields i to g - 1 of t, each zero-padded to its width, separated by '-'. */
  function KeyFrom(t: Moment, i: nat, g: nat): string
    decreases g - i
  {
    if i >= g then "" else if i + 1 == g then Pad(Field(t, i), Width(i))
    else Pad(Field(t, i), Width(i)) + ("-" + KeyFrom(t, i + 1, g))
  }

  lemma FormatToken(i: nat, rest: string, t: Moment)
    requires i < 5
    ensures Format(Token(i) + rest, t) == Pad(Field(t, i), Width(i)) + Format(rest, t)
  {
    if i == 0 { FormatYear(rest, t); }
    else if i == 1 { FormatMonth(rest, t); }
    else if i == 2 { FormatDay(rest, t); }
    else if i == 3 { FormatHour(rest, t); }
    else { FormatMinute(rest, t); }
  }

  lemma {:induction false} FormatLayout(t: Moment, i: nat, g: nat)
    requires i < g <= 5
    ensures Format(Layout(i, g), t) == KeyFrom(t, i, g)
    decreases g - i
  {
    if i + 1 == g {
      FormatToken(i, "", t);
      assert Token(i) + "" == Token(i);
    } else {
      var rest := Layout(i + 1, g);
      FormatToken(i, "-" + rest, t);
      FormatDash(rest, t);
      FormatLayout(t, i + 1, g);
    }
  }

  /** Each layout of the table is the token layout of its granularity. */
  lemma LayoutsOfFormats(st: int)
    ensures GetFileFormat(st) == Layout(0, Granularity(st))
  {
    if st == StorageTypeMinutes {
      LayoutSteps5();
    } else if st == StorageTypeHour {
      LayoutSteps4();
    } else if st == StorageTypeDay {
      LayoutSteps3();
    } else if st == StorageTypeMonth {
      assert Layout(1, 2) == "01";
      assert Layout(0, 2) == "2006-01";
    }
  }

  lemma LayoutSteps5()
    ensures Layout(0, 5) == "2006-01-02-15-04"
  {
    LayoutStep1of5();
  }

  lemma LayoutStep1of5()
    ensures Layout(1, 5) == "01-02-15-04"
  {
    LayoutStep2of5();
  }

  lemma LayoutStep2of5()
    ensures Layout(2, 5) == "02-15-04"
  {
    LayoutStep3of5();
  }

  lemma LayoutStep3of5()
    ensures Layout(3, 5) == "15-04"
  {
    assert Layout(4, 5) == "04";
  }

  lemma LayoutSteps4()
    ensures Layout(0, 4) == "2006-01-02-15"
  {
    LayoutStep1of4();
  }

  lemma LayoutStep1of4()
    ensures Layout(1, 4) == "01-02-15"
  {
    assert Layout(3, 4) == "15";
    assert Layout(2, 4) == "02-15";
  }

  lemma LayoutSteps3()
    ensures Layout(0, 3) == "2006-01-02"
  {
    LayoutStep1of3();
  }

  lemma LayoutStep1of3()
    ensures Layout(1, 3) == "01-02"
  {
    assert Layout(2, 3) == "02";
  }

  /** The bucket key is the leading fields of the instant the storage type keeps, zero-padded and '-'-separated. */
  lemma FileDateFields(st: int, t: Moment)
    ensures FileDate(st, t) == KeyFrom(t, 0, Granularity(st))
  {
    LayoutsOfFormats(st);
    if Granularity(st) > 0 {
      FormatLayout(t, 0, Granularity(st));
    }
  }

  /** For a valid instant, every field fits its width. */
  lemma FieldFits(t: Moment, i: nat)
    requires ValidMoment(t) && i < 5
    ensures |Digits(Field(t, i))| <= Width(i)
  {
    DigitsLength(Field(t, i));
  }

  /** Equal-width padded numbers followed by any text agree exactly when both parts agree. */
  lemma PeelPad(a: nat, b: nat, w: nat, r1: string, r2: string)
    requires |Digits(a)| <= w && |Digits(b)| <= w
    ensures Pad(a, w) + r1 == Pad(b, w) + r2 <==> a == b && r1 == r2
  {
    PadRoundTrip(a, w);
    PadRoundTrip(b, w);
    var x, y := Pad(a, w) + r1, Pad(b, w) + r2;
    if x == y {
      assert Pad(a, w) == x[..w] && Pad(b, w) == y[..w];
      assert r1 == x[w..] && r2 == y[w..];
    }
  }

  /** t1 and t2 agree on fields i to g - 1. */
  predicate Agree(t1: Moment, t2: Moment, i: nat, g: nat) {
    forall j :: i <= j < g ==> Field(t1, j) == Field(t2, j)
  }

  lemma AgreeSplit(t1: Moment, t2: Moment, i: nat, g: nat)
    requires i < g
    ensures Agree(t1, t2, i, g) <==> Field(t1, i) == Field(t2, i) && Agree(t1, t2, i + 1, g)
  {
  }

  /** Equal keys after a '-' separator have equal remainders. */
  lemma DashPeel(k1: string, k2: string)
    ensures "-" + k1 == "-" + k2 <==> k1 == k2
  {
    if "-" + k1 == "-" + k2 {
      assert k1 == ("-" + k1)[1..] && k2 == ("-" + k2)[1..];
    }
  }

  lemma {:induction false} KeyFromInjective(t1: Moment, t2: Moment, i: nat, g: nat)
    requires ValidMoment(t1) && ValidMoment(t2) && g <= 5
    ensures KeyFrom(t1, i, g) == KeyFrom(t2, i, g) <==> Agree(t1, t2, i, g)
    decreases g - i
  {
    if i < g {
      FieldFits(t1, i);
      FieldFits(t2, i);
      AgreeSplit(t1, t2, i, g);
      var a, b, w := Field(t1, i), Field(t2, i), Width(i);
      if i + 1 == g {
        PeelPad(a, b, w, "", "");
        assert Pad(a, w) + "" == Pad(a, w) && Pad(b, w) + "" == Pad(b, w);
        assert KeyFrom(t1, i, g) == Pad(a, w) && KeyFrom(t2, i, g) == Pad(b, w);
        assert !Agree(t1, t2, i + 1, g) ==> false;
      } else {
        var k1, k2 := KeyFrom(t1, i + 1, g), KeyFrom(t2, i + 1, g);
        KeyFromInjective(t1, t2, i + 1, g);
        PeelPad(a, b, w, "-" + k1, "-" + k2);
        DashPeel(k1, k2);
        assert KeyFrom(t1, i, g) == Pad(a, w) + ("-" + k1);
        assert KeyFrom(t2, i, g) == Pad(b, w) + ("-" + k2);
      }
    }
  }

  /**
   * Two instants write to the same file exactly when they agree on every field the
   * storage type keeps: a minute bucket on year to minute, a month bucket on year and month.
   */
  lemma SameBucketIffSameFields(st: int, t1: Moment, t2: Moment)
    requires ValidMoment(t1) && ValidMoment(t2)
    ensures FileDate(st, t1) == FileDate(st, t2) <==> forall j :: 0 <= j < Granularity(st) ==> Field(t1, j) == Field(t2, j)
  {
    FileDateFields(st, t1);
    FileDateFields(st, t2);
    KeyFromInjective(t1, t2, 0, Granularity(st));
    assert Agree(t1, t2, 0, Granularity(st)) <==> forall j :: 0 <= j < Granularity(st) ==> Field(t1, j) == Field(t2, j);
  }

  /** The same, spelled out per storage type. */
  lemma BucketsByStorageType(t1: Moment, t2: Moment)
    requires ValidMoment(t1) && ValidMoment(t2)
    ensures FileDate(StorageTypeMonth, t1) == FileDate(StorageTypeMonth, t2) <==>
      t1.year == t2.year && t1.month == t2.month
    ensures FileDate(StorageTypeDay, t1) == FileDate(StorageTypeDay, t2) <==>
      t1.year == t2.year && t1.month == t2.month && t1.day == t2.day
    ensures FileDate(StorageTypeHour, t1) == FileDate(StorageTypeHour, t2) <==>
      t1.year == t2.year && t1.month == t2.month && t1.day == t2.day && t1.hour == t2.hour
    ensures FileDate(StorageTypeMinutes, t1) == FileDate(StorageTypeMinutes, t2) <==>
      t1.year == t2.year && t1.month == t2.month && t1.day == t2.day && t1.hour == t2.hour && t1.minute == t2.minute
    ensures forall st :: st !in Formats ==> FileDate(st, t1) == ""
  {
    SameBucketIffSameFields(StorageTypeMonth, t1, t2);
    assert Field(t1, 0) == t1.year && Field(t1, 1) == t1.month;
    SameBucketIffSameFields(StorageTypeDay, t1, t2);
    assert Field(t1, 2) == t1.day;
    SameBucketIffSameFields(StorageTypeHour, t1, t2);
    assert Field(t1, 3) == t1.hour;
    SameBucketIffSameFields(StorageTypeMinutes, t1, t2);
    assert Field(t1, 4) == t1.minute;
    forall st | st !in Formats ensures FileDate(st, t1) == "" {
      FormatEmpty(t1);
    }
  }

  /** The options of a FileWriter; date is the bucket key of the open file. */
  datatype FileOptions = FileOptions(storageType: int, maxDay: int, dir: string, prefix: string, date: string)

  /** Go's zero FileOptions value, used when no options are given. */
  const ZeroOptions := FileOptions(StorageTypeMinutes, 0, "", "", "")

  /** The defaults prepareFileWriterOption fills in. */
  function Normalize(o: FileOptions): (n: FileOptions)
    ensures |n.dir| > 0 && n.dir[|n.dir| - 1] == '/'
    ensures n.maxDay > 0
    ensures n.storageType == o.storageType && n.prefix == o.prefix && n.date == o.date
  {
    var dir := if o.dir == "" then "./" else o.dir;
    var maxDay := if o.maxDay <= 0 then DefaultMaxDay else o.maxDay;
    o.(dir := if dir[|dir| - 1] == '/' then dir else dir + "/", maxDay := maxDay)
  }

  /** What each field becomes: the defaults "./" and 7, and a '/' added only when missing. */
  lemma NormalizeDefaults(o: FileOptions)
    ensures o.dir == "" ==> Normalize(o).dir == "./"
    ensures o.dir != "" && o.dir[|o.dir| - 1] == '/' ==> Normalize(o).dir == o.dir
    ensures o.dir != "" && o.dir[|o.dir| - 1] != '/' ==> Normalize(o).dir == o.dir + "/"
    ensures Normalize(o).maxDay == if o.maxDay <= 0 then DefaultMaxDay else o.maxDay
  {
  }

  /** Normalised options are left as they are. */
  lemma NormalizeIdempotent(o: FileOptions)
    ensures Normalize(Normalize(o)) == Normalize(o)
  {
    var n := Normalize(o);
    assert n.dir != "" && n.dir[|n.dir| - 1] == '/';
  }

  /** prepareFileWriterOption: the first options or the zero value, completed field by field. */
  method PrepareFileWriterOption(opts: seq<FileOptions>) returns (opt: FileOptions)
    ensures opt == Normalize(if |opts| > 0 then opts[0] else ZeroOptions)
  {
    opt := ZeroOptions;
    if |opts| > 0 {
      opt := opts[0];
    }
    ghost var given := opt;
    if opt.dir == "" {
      opt := opt.(dir := "./");
    }
    if opt.maxDay <= 0 {
      opt := opt.(maxDay := DefaultMaxDay);
    }
    if opt.dir[|opt.dir| - 1..] != "/" {
      opt := opt.(dir := opt.dir + "/");
    }
    assert opt.dir[|opt.dir| - 1..] == [opt.dir[|opt.dir| - 1]];
    assert opt == Normalize(given);
  }

  /** The path with its trailing separators removed. */
  function TrimTrailingSlashes(s: string): string
    decreases |s|
  {
    if s != "" && s[|s| - 1] == '/' then TrimTrailingSlashes(s[..|s| - 1]) else s
  }

  /** Trimming keeps a prefix of the path that does not end in '/', and drops only separators. */
  lemma {:induction false} TrimTrailingSlashesShape(s: string)
    ensures var r := TrimTrailingSlashes(s);
      |r| <= |s| && r == s[..|r|] && (r == "" || r[|r| - 1] != '/') &&
      forall k :: |r| <= k < |s| ==> s[k] == '/'
    decreases |s|
  {
    if s != "" && s[|s| - 1] == '/' {
      var p := s[..|s| - 1];
      TrimTrailingSlashesShape(p);
      var r := TrimTrailingSlashes(p);
      assert TrimTrailingSlashes(s) == r;
      assert s[..|r|] == p[..|r|];
    }
  }

  /**
   * filepath.Dir: everything up to the last separator, without trailing separators;
   * "." for a path with no separator and "/" for the root.
   */
  function DirOf(path: string): (d: string)
    ensures d != ""
  {
    var i := LastIndex(path, '/');
    if i < 0 then "."
    else
      var head := TrimTrailingSlashes(path[..i + 1]);
      if head == "" then "/" else head
  }

  /** For a directory path ending in '/', the directory created is that path without its trailing separators. */
  lemma DirOfDirectory(dir: string)
    requires dir != "" && dir[|dir| - 1] == '/'
    ensures DirOf(dir) == if TrimTrailingSlashes(dir) == "" then "/" else TrimTrailingSlashes(dir)
  {
    LastIndexAtEnd(dir, '/');
    assert dir[..|dir|] == dir;
  }

  lemma LastIndexAtEnd(s: string, c: char)
    requires s != [] && s[|s| - 1] == c
    ensures LastIndex(s, c) == |s| - 1
  {
  }

  /** The default directory "./" is created as "."; a directory given as "logs" or "logs/" as "logs". */
  lemma DirOfExamples()
    ensures DirOf("./") == "."
    ensures DirOf("logs/") == "logs"
  {
    DirOfDirectory("./");
    var d := "./";
    assert d[..1] == "." && d[1] == '/' && d[0] != '/';
    assert TrimTrailingSlashes(d[..1]) == ".";
    DirOfDirectory("logs/");
    var l := "logs/";
    assert l[..4] == "logs" && l[4] == '/' && l[3] != '/';
    assert TrimTrailingSlashes(l[..4]) == "logs";
  }

  /** The name of the log file of a bucket: "<prefix>.<date>.log". */
  function LogName(prefix: string, date: string): string {
    prefix + "." + date + ".log"
  }

  /** Where initFile opens the log file of a bucket. */
  function LogPath(dir: string, prefix: string, date: string): string {
    dir + LogName(prefix, date)
  }

  /** Under one directory and prefix, distinct bucket keys name distinct files; the path starts with the directory. */
  lemma LogPathInjective(dir: string, prefix: string, d1: string, d2: string)
    ensures LogPath(dir, prefix, d1) == LogPath(dir, prefix, d2) <==> d1 == d2
    ensures LogPath(dir, prefix, d1)[..|dir|] == dir
  {
    var head := dir + prefix + ".";
    assert LogPath(dir, prefix, d1) == head + d1 + ".log";
    assert LogPath(dir, prefix, d2) == head + d2 + ".log";
    var s1, s2 := head + d1 + ".log", head + d2 + ".log";
    assert s1[|head|..|head| + |d1|] == d1;
    assert s2[|head|..|head| + |d2|] == d2;
    if s1 == s2 {
      assert |d1| == |d2|;
    }
  }

  /** The file map after an open with O_CREATE: the path exists, empty if it was absent. */
  function Created(files: map<string, string>, path: string): (m: map<string, string>)
    ensures m.Keys == files.Keys + {path}
    ensures forall p :: p in files ==> m[p] == files[p]
    ensures path !in files ==> m[path] == ""
  {
    if path in files then files else files[path := ""]
  }

  /** The file map after appending p to path; a file that no longer exists takes no data. */
  function Appended(files: map<string, string>, path: string, p: string): (m: map<string, string>)
    ensures m.Keys == files.Keys
    ensures path in files ==> m[path] == files[path] + p
    ensures forall q :: q in files && q != path ==> m[q] == files[q]
  {
    if path in files then files[path := files[path] + p] else files
  }

  /** Why a FileWriter panics. */
  datatype Fault = MkdirFailed(path: string) | OpenFailed(path: string) | NilInfo(name: string)

  /** The permission argument initFile passes to os.MkdirAll: the decimal literal 755, octal 1363. */
  const MkdirPermAsWritten: bv32 := 755

  /** The mode evidently meant: octal 0755, rwxr-xr-x. */
  const MkdirPerm: bv32 := 0x1ED

  /** The usual process umask, octal 022. */
  const Umask: bv32 := 0x12

  /** The permission bits mkdir gives a new directory: perm & 0777 without the umask's bits. */
  function CreatedMode(perm: bv32, umask: bv32): (mode: bv32)
    ensures mode & !0x1FF == 0 && mode & umask == 0
  {
    perm & 0x1FF & !umask
  }

  /** The owner may list the directory: read and search permission, octal 0500. */
  predicate OwnerCanList(mode: bv32) {
    mode & 0x140 == 0x140
  }

  /**
   * As written, the new directory never grants its owner read permission, whatever the umask;
   * under umask 022 its mode is 0341. os.ReadDir then fails for a process that is not root, and
   * clearLogFile's listing is empty.
   */
  lemma MkdirModeAsWritten(umask: bv32)
    ensures !OwnerCanList(CreatedMode(MkdirPermAsWritten, umask))
    ensures CreatedMode(MkdirPermAsWritten, Umask) == 0xE1
  {
  }

  /** With 0755 the owner can list the directory under any umask that spares the owner's bits. */
  lemma MkdirModeIntended(umask: bv32)
    requires umask & 0x1C0 == 0
    ensures OwnerCanList(CreatedMode(MkdirPerm, umask))
    ensures CreatedMode(MkdirPerm, Umask) == 0x1ED
  {
  }

  /** How a FileWriter operation ends: normally, or with a panic. */
  datatype Status = Done | Panicked(fault: Fault)

  /** The operating system's files and directories. */
  class FileSystem {
    var files: map<string, string>
    var dirs: set<string>
    /** Paths at which creating a directory or opening a file fails. */
    const denied: set<string>
    /** Paths at which os.Remove fails (no write permission on the directory, the file busy). */
    const pinned: set<string>
    /** Paths at which a write fails (disk full, an I/O error). */
    const failing: set<string>

    constructor (files: map<string, string>, dirs: set<string>, denied: set<string>,
                 pinned: set<string>, failing: set<string>)
      ensures this.files == files && this.dirs == dirs && this.denied == denied
      ensures this.pinned == pinned && this.failing == failing
    {
      this.files := files;
      this.dirs := dirs;
      this.denied := denied;
      this.pinned := pinned;
      this.failing := failing;
    }

    /** os.MkdirAll: succeeds unless the path is denied; an existing directory is not an error. */
    method MkdirAll(path: string) returns (ok: bool)
      modifies this
      ensures ok == (path !in denied)
      ensures files == old(files)
      ensures dirs == if ok then old(dirs) + {path} else old(dirs)
    {
      ok := path !in denied;
      if ok {
        dirs := dirs + {path};
      }
    }

    /** os.OpenFile with O_WRONLY|O_CREATE|O_APPEND: a fresh open handle, or null when the path is denied. */
    method OpenAppend(path: string) returns (h: Handle?)
      modifies this
      ensures (h == null) == (path in denied)
      ensures h != null ==> fresh(h) && h.path == path && h.fs == this && h.open
      ensures files == if h == null then old(files) else Created(old(files), path)
      ensures dirs == old(dirs)
    {
      if path in denied {
        return null;
      }
      files := Created(files, path);
      h := new Handle(path, this);
    }

    /** os.Remove: the file is deleted unless removal fails at that path; a pinned or missing path is an error. */
    method Remove(path: string) returns (err: bool)
      modifies this
      ensures err == (path in pinned || path !in old(files))
      ensures files == (if path in pinned then old(files) else old(files) - {path})
      ensures dirs == old(dirs)
    {
      err := path in pinned || path !in files;
      if path !in pinned {
        files := files - {path};
      }
    }
  }

  /** An *os.File opened for appending. */
  class Handle {
    const path: string
    const fs: FileSystem
    var open: bool

    constructor (path: string, fs: FileSystem)
      ensures this.path == path && this.fs == fs && open
    {
      this.path := path;
      this.fs := fs;
      open := true;
    }

    /**
     * (*os.File).Write: appends p and reports all of it written; on a closed file, or where
     * writing fails, nothing is written and the error is reported.
     */
    method Write(p: string) returns (n: int, err: bool)
      modifies fs
      ensures fs.dirs == old(fs.dirs)
      ensures err == (!open || path in fs.failing)
      ensures !err ==> n == |p| && fs.files == Appended(old(fs.files), path, p)
      ensures err ==> n == 0 && fs.files == old(fs.files)
    {
      if !open || path in fs.failing {
        return 0, true;
      }
      fs.files := Appended(fs.files, path, p);
      n, err := |p|, false;
    }

    /** (*os.File).Close: closing twice is an error. */
    method Close() returns (err: bool)
      modifies this
      ensures !open && err == !old(open)
    {
      err := !open;
      open := false;
    }
  }

  class FileWriter {
    var file: Handle?
    const storageType: int
    const maxDay: int
    const dir: string
    const prefix: string
    var date: string
    const fs: FileSystem

    function Options(): FileOptions
      reads this
    {
      FileOptions(storageType, maxDay, dir, prefix, date)
    }

    /** An open file is an open handle on this writer's file system, at the path of the recorded bucket. */
    ghost predicate Valid()
      reads this, file
    {
      file != null ==> file.fs == fs && file.open && file.path == LogPath(dir, prefix, date)
    }

    /** NewFileWriter: the prepared options, no file open yet. */
    constructor New(opts: seq<FileOptions>, fs: FileSystem)
      ensures Options() == Normalize(if |opts| > 0 then opts[0] else ZeroOptions)
      ensures this.fs == fs && file == null && Valid()
    {
      var opt := PrepareFileWriterOption(opts);
      storageType := opt.storageType;
      maxDay := opt.maxDay;
      dir := opt.dir;
      prefix := opt.prefix;
      date := opt.date;
      this.fs := fs;
      file := null;
    }

    /** How initFile ends at instant now: reuse or a successful open, else the panic of the failing call. */
    function InitStatus(now: Moment): Status
      reads this
    {
      var key := FileDate(storageType, now);
      if file != null && date == key then Done
      else if DirOf(dir) in fs.denied then Panicked(MkdirFailed(DirOf(dir)))
      else if LogPath(dir, prefix, key) in fs.denied then Panicked(OpenFailed(LogPath(dir, prefix, key)))
      else Done
    }

    /**
     * initFile: in the same bucket with a file open nothing changes; otherwise the open file,
     * if any, is closed and dropped, the directory is created, and the bucket's file is opened
     * and recorded with its key. A failure to create or open panics.
     */
    method InitFile(now: Moment) returns (status: Status)
      requires Valid()
      modifies this, fs, file
      ensures Valid()
      ensures status == old(InitStatus(now))
      ensures var key := FileDate(storageType, now);
        var path := LogPath(dir, prefix, key);
        var parent := DirOf(dir);
        if old(file) != null && old(date) == key then
          file == old(file) && date == key && fs.files == old(fs.files) && fs.dirs == old(fs.dirs)
        else
          (old(file) != null ==> !old(file).open) &&
          if parent in fs.denied then
            file == null && date == old(date) && fs.files == old(fs.files) && fs.dirs == old(fs.dirs)
          else if path in fs.denied then
            file == null && date == old(date) && fs.files == old(fs.files) && fs.dirs == old(fs.dirs) + {parent}
          else
            file != null && fresh(file) && file.path == path && date == key &&
            fs.files == Created(old(fs.files), path) && fs.dirs == old(fs.dirs) + {parent}
    {
      var key := FileDate(storageType, now);
      if date != key && file != null {
        var _ := file.Close();
        file := null;
      }
      if file == null {
        var parent := DirOf(dir);
        var ok := fs.MkdirAll(parent);
        if !ok {
          return Panicked(MkdirFailed(parent));
        }
        var path := LogPath(dir, prefix, key);
        var h := fs.OpenAppend(path);
        if h == null {
          return Panicked(OpenFailed(path));
        }
        file := h;
        date := key;
      }
      status := Done;
    }

    /**
     * Write: initFile, then one append of p to the bucket's file, whose count and error are
     * returned. A file replaced by a new bucket is closed first; an initFile panic writes nothing.
     */
    method Write(p: string, now: Moment) returns (n: int, err: bool, status: Status)
      requires Valid()
      modifies this, fs, file
      ensures Valid()
      ensures status == old(InitStatus(now))
      ensures var key := FileDate(storageType, now);
        var reused := old(file) != null && old(date) == key;
        !reused && old(file) != null ==> !old(file).open
      ensures var key := FileDate(storageType, now);
        var path := LogPath(dir, prefix, key);
        var reused := old(file) != null && old(date) == key;
        var held := if reused then old(fs.files) else Created(old(fs.files), path);
        status == Done ==>
          file != null && file.path == path && date == key &&
          (reused ==> file == old(file)) && (!reused ==> fresh(file)) &&
          fs.dirs == (if reused then old(fs.dirs) else old(fs.dirs) + {DirOf(dir)}) &&
          err == (path in fs.failing) &&
          (err ==> n == 0 && fs.files == held) &&
          (!err ==> n == |p| && fs.files == Appended(held, path, p))
      ensures status != Done ==>
        n == 0 && !err && file == null && date == old(date) && fs.files == old(fs.files) &&
        fs.dirs == (if DirOf(dir) in fs.denied then old(fs.dirs) else old(fs.dirs) + {DirOf(dir)})
    {
      status := InitFile(now);
      if status != Done {
        return 0, false, status;
      }
      n, err := file.Write(p);
    }

    /**
     * clearLogFile, with the retention test computed without overflow: every listed plain file
     * whose modification time plus MaxDay - 1 days is before now is removed, nothing else; a
     * removal that fails is ignored and leaves its file in place.
     */
    method ClearLogFile(now: int, listing: Option<seq<DirEntry>>) returns (status: Status)
      modifies fs
      ensures fs.dirs == old(fs.dirs)
      ensures status == Done <==> listing.None? || Described(listing.value)
      ensures status == Done ==>
        fs.files == old(fs.files) - (ExpiredPaths(dir, Listed(listing), now, maxDay) - fs.pinned)
      ensures status != Done ==> fs.files == old(fs.files)
    {
      var files;
      files, status := GetDirFiles(listing);
      if status != Done {
        return;
      }
      var i := 0;
      while i < |files|
        invariant 0 <= i <= |files|
        invariant fs.dirs == old(fs.dirs)
        invariant fs.files == old(fs.files) - (ExpiredPaths(dir, files[..i], now, maxDay) - fs.pinned)
      {
        var item := files[i];
        assert files[..i + 1][..i] == files[..i];
        if Expired(item.modTime, now, maxDay) {
          var _ := fs.Remove(dir + item.name);
        }
        i := i + 1;
      }
      assert files[..i] == files;
    }
  }

  /** What fi.Info() reports for an entry: its modification time (nanoseconds) and size. */
  datatype Stat = Stat(modTime: int, size: int)

  /** An os.ReadDir entry; info is None when fi.Info() fails (the entry vanished since the read). */
  datatype DirEntry = DirEntry(name: string, isDir: bool, info: Option<Stat>)

  datatype FileInfo = FileInfo(name: string, modTime: int, size: int)

  /** Every plain file of the listing still has its metadata. */
  predicate Described(entries: seq<DirEntry>) {
    forall i :: 0 <= i < |entries| && !entries[i].isDir ==> entries[i].info.Some?
  }

  /** The plain files of a listing with their metadata, in listing order. */
  function LogFiles(entries: seq<DirEntry>): seq<FileInfo>
    decreases |entries|
  {
    if entries == [] then []
    else
      var e := entries[|entries| - 1];
      LogFiles(entries[..|entries| - 1]) +
        if !e.isDir && e.info.Some? then [FileInfo(e.name, e.info.value.modTime, e.info.value.size)] else []
  }

  /** The files a directory read yields: none when the directory cannot be read. */
  function Listed(listing: Option<seq<DirEntry>>): seq<FileInfo> {
    if listing.None? then [] else LogFiles(listing.value)
  }

  /** The directory entry a listed file comes from. */
  function EntryOf(f: FileInfo): DirEntry {
    DirEntry(f.name, false, Some(Stat(f.modTime, f.size)))
  }

  /** Some entry of the listing is the plain file f describes. */
  predicate HasEntry(entries: seq<DirEntry>, f: FileInfo) {
    exists i :: 0 <= i < |entries| && entries[i] == EntryOf(f)
  }

  lemma HasEntrySplit(entries: seq<DirEntry>, f: FileInfo)
    requires entries != []
    ensures HasEntry(entries, f) <==>
      HasEntry(entries[..|entries| - 1], f) || entries[|entries| - 1] == EntryOf(f)
  {
    var n := |entries| - 1;
    var init := entries[..n];
    if HasEntry(init, f) {
      var i :| 0 <= i < |init| && init[i] == EntryOf(f);
      assert entries[i] == init[i];
    }
    if HasEntry(entries, f) {
      var i :| 0 <= i < |entries| && entries[i] == EntryOf(f);
      if i < n {
        assert init[i] == entries[i];
      }
    }
  }

  lemma DescribedPrefix(entries: seq<DirEntry>, n: nat)
    requires Described(entries) && n <= |entries|
    ensures Described(entries[..n])
  {
    var init := entries[..n];
    forall i | 0 <= i < |init| && !init[i].isDir ensures init[i].info.Some? {
      assert init[i] == entries[i];
    }
  }

  /** A file is listed exactly when a plain-file entry with that name and metadata is. */
  lemma {:induction false} LogFilesMembers(entries: seq<DirEntry>, f: FileInfo)
    requires Described(entries)
    ensures f in LogFiles(entries) <==>
      exists i :: 0 <= i < |entries| && entries[i] == DirEntry(f.name, false, Some(Stat(f.modTime, f.size)))
    decreases |entries|
  {
    if entries != [] {
      var n := |entries| - 1;
      var init, e := entries[..n], entries[n];
      DescribedPrefix(entries, n);
      LogFilesMembers(init, f);
      HasEntrySplit(entries, f);
      var tail := if !e.isDir && e.info.Some? then [FileInfo(e.name, e.info.value.modTime, e.info.value.size)] else [];
      assert LogFiles(entries) == LogFiles(init) + tail;
      assert f in tail <==> e == EntryOf(f);
    }
    assert HasEntry(entries, f) <==>
      exists i :: 0 <= i < |entries| && entries[i] == DirEntry(f.name, false, Some(Stat(f.modTime, f.size)));
  }

  /**
   * getDirFiles: an unreadable directory gives no files; otherwise the plain files in order.
   * A plain file whose metadata cannot be read makes info nil, and info.ModTime() panics.
   */
  method GetDirFiles(listing: Option<seq<DirEntry>>) returns (files: seq<FileInfo>, status: Status)
    ensures listing.None? ==> files == [] && status == Done
    ensures listing.Some? ==> (status == Done <==> Described(listing.value))
    ensures status == Done ==> files == Listed(listing)
  {
    if listing.None? {
      return [], Done;
    }
    var dir := listing.value;
    files := [];
    var i := 0;
    while i < |dir|
      invariant 0 <= i <= |dir|
      invariant Described(dir[..i])
      invariant files == LogFiles(dir[..i])
    {
      var fi := dir[i];
      assert dir[..i + 1][..i] == dir[..i];
      if !fi.isDir {
        if fi.info.None? {
          return files, Panicked(NilInfo(fi.name));
        }
        files := files + [FileInfo(fi.name, fi.info.value.modTime, fi.info.value.size)];
      }
      assert dir[..i + 1][i] == fi;
      i := i + 1;
    }
    assert dir[..i] == dir;
    status := Done;
  }

  /** 24 * time.Hour, in nanoseconds. */
  const DayNs := 86400000000000

  /** The retention test on unbounded integers: modTime + (maxDay - 1) days is strictly before now. */
  predicate Expired(modTime: int, now: int, maxDay: int) {
    modTime + (maxDay - 1) * DayNs < now
  }

  /** The paths the sweep removes: the directory joined with each expired file's name. */
  function ExpiredPaths(dir: string, files: seq<FileInfo>, now: int, maxDay: int): set<string>
    decreases |files|
  {
    if files == [] then {}
    else
      var f := files[|files| - 1];
      ExpiredPaths(dir, files[..|files| - 1], now, maxDay) +
        if Expired(f.modTime, now, maxDay) then {dir + f.name} else {}
  }

  /** A path is swept exactly when some listed file under that name is expired. */
  lemma {:induction false} ExpiredPathsExact(dir: string, files: seq<FileInfo>, now: int, maxDay: int, p: string)
    ensures p in ExpiredPaths(dir, files, now, maxDay) <==>
      exists i :: 0 <= i < |files| && p == dir + files[i].name && Expired(files[i].modTime, now, maxDay)
    decreases |files|
  {
    if files != [] {
      var n := |files| - 1;
      var init := files[..n];
      ExpiredPathsExact(dir, init, now, maxDay, p);
      if exists i :: 0 <= i < |init| && p == dir + init[i].name && Expired(init[i].modTime, now, maxDay) {
        var i :| 0 <= i < |init| && p == dir + init[i].name && Expired(init[i].modTime, now, maxDay);
        assert files[i] == init[i];
      }
      if exists i :: 0 <= i < |files| && p == dir + files[i].name && Expired(files[i].modTime, now, maxDay) {
        var i :| 0 <= i < |files| && p == dir + files[i].name && Expired(files[i].modTime, now, maxDay);
        if i < n {
          assert init[i] == files[i];
        }
      }
    }
  }

  /** Go's int64 arithmetic: x reduced into [-2^63, 2^63) modulo 2^64. */
  function WrapInt64(x: int): (r: int)
    ensures -0x8000_0000_0000_0000 <= r < 0x8000_0000_0000_0000
    ensures (x - r) % 0x1_0000_0000_0000_0000 == 0
  {
    (x + 0x8000_0000_0000_0000) % 0x1_0000_0000_0000_0000 - 0x8000_0000_0000_0000
  }

  /** The retention test as clearLogFile computes it: the Duration product wraps in int64. */
  predicate ExpiredAsWritten(modTime: int, now: int, maxDay: int) {
    modTime + WrapInt64(DayNs * (maxDay - 1)) < now
  }

  /** Up to 106752 days the product fits in int64 and the test is the intended one. */
  lemma ExpiredAsWrittenAgrees(modTime: int, now: int, maxDay: int)
    requires 1 <= maxDay <= 106752
    ensures ExpiredAsWritten(modTime, now, maxDay) == Expired(modTime, now, maxDay)
  {
    var d := DayNs * (maxDay - 1);
    assert 0 <= d <= DayNs * 106751;
    assert WrapInt64(d) == d;
  }

  /** With MaxDay 106753 the product wraps negative and a file modified one nanosecond ago is deleted. */
  lemma ExpiredAsWrittenOverflow(now: int)
    ensures WrapInt64(DayNs * (106753 - 1)) == -9223371273709551616
    ensures ExpiredAsWritten(now - 1, now, 106753)
    ensures !Expired(now - 1, now, 106753)
  {
    assert DayNs * (106753 - 1) == 9223372800000000000;
  }
}
