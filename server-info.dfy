/** The server collectors (class WM_Monitor_Server_Info): PHP extensions, database
    engine and size, web-server classification, disk figures and directory sizes,
    and the unit choice of `format_bytes`. */
module ServerInfo {
  import opened Wrappers
  import Php

  // ---------------------------------------------------------------- format_bytes

  const Units: seq<string> := ["B", "KB", "MB", "GB", "TB"]

  function Pow1024(k: nat): (p: nat)
    ensures p >= 1
  {
    if k == 0 then 1 else 1024 * Pow1024(k - 1)
  }

  /** The unit `format_bytes` picks: the largest k <= 4 with 1024^k <= bytes, with
      negative sizes clamped to zero and zero itself in bytes. */
  function UnitIndex(bytes: int): (k: nat)
    ensures k < |Units|
    ensures bytes < 1024 ==> k == 0
    ensures k > 0 ==> Pow1024(k) <= bytes
    ensures k < 4 ==> bytes < Pow1024(k + 1)
  {
    assert Pow1024(1) == 1024 && Pow1024(2) == 1048576 && Pow1024(3) == 1073741824
           && Pow1024(4) == 1099511627776 && Pow1024(5) == 1125899906842624;
    if bytes < 1024 then 0
    else if bytes < 1048576 then 1
    else if bytes < 1073741824 then 2
    else if bytes < 1099511627776 then 3
    else 4
  }

  /** A formatted size: the (clamped) byte count and the unit it is written in. The
      rounded decimal mantissa is not modelled. */
  datatype Formatted = Formatted(bytes: nat, unit: string)

  function FormatBytes(bytes: int): (f: Formatted)
    ensures f.bytes == if bytes < 0 then 0 else bytes
    ensures f.unit == Units[UnitIndex(bytes)]
  {
    Formatted(if bytes < 0 then 0 else bytes, Units[UnitIndex(bytes)])
  }

  /** 0 is written in B, 1536 in KB, 1073741824 in GB, and a negative size as 0 B. */
  lemma FormatBytesExamples(negative: int)
    requires negative < 0
    ensures FormatBytes(0) == Formatted(0, "B")
    ensures FormatBytes(1536).unit == "KB"
    ensures FormatBytes(1073741824).unit == "GB"
    ensures FormatBytes(negative) == Formatted(0, "B")
  {
  }

  // ---------------------------------------------------------------- extensions

  const ImportantExtensions: seq<string> :=
    ["curl", "gd", "imagick", "json", "mbstring", "mysqli", "openssl", "xml", "zip", "zlib", "intl", "soap", "opcache"]

  /** `get_php_extensions`: one flag per important extension, in the listed order;
      `loaded` is the set `extension_loaded` answers true for. */
  method GetPhpExtensions(loaded: set<string>) returns (r: seq<(string, bool)>)
    ensures |r| == |ImportantExtensions| == 13
    ensures forall i :: 0 <= i < |r| ==> r[i] == (ImportantExtensions[i], ImportantExtensions[i] in loaded)
  {
    r := [];
    for i := 0 to |ImportantExtensions|
      invariant |r| == i
      invariant forall j :: 0 <= j < i ==> r[j] == (ImportantExtensions[j], ImportantExtensions[j] in loaded)
    {
      var ext := ImportantExtensions[i];
      r := r + [(ext, ext in loaded)];
    }
  }

  /** The thirteen keys are distinct, so the resulting map has exactly thirteen keys. */
  lemma ExtensionNamesDistinct()
    ensures forall i, j :: 0 <= i < j < |ImportantExtensions| ==> ImportantExtensions[i] != ImportantExtensions[j]
  {
  }

  // ---------------------------------------------------------------- database

  /** One row of SHOW TABLE STATUS; the lengths are NULL for a view. */
  datatype TableStatus = TableStatus(dataLength: Option<nat>, indexLength: Option<nat>)

  /** `Data_length + Index_length` with PHP's NULL-as-0 arithmetic. */
  function TableBytes(t: TableStatus): (bytes: nat) {
    t.dataLength.GetOr(0) + t.indexLength.GetOr(0)
  }

  function TablesBytes(tables: seq<TableStatus>): (bytes: nat) {
    if tables == [] then 0 else TablesBytes(tables[..|tables| - 1]) + TableBytes(tables[|tables| - 1])
  }

  datatype DatabaseInfo = DatabaseInfo(
    engine: string, version: string, charset: string, collate: string, prefix: string,
    tablesCount: nat, totalSize: Option<Formatted>, totalSizeBytes: Option<nat>)

  /** The engine is MariaDB exactly when the version string mentions "mariadb" in any case. */
  function Engine(version: string): (e: string)
    ensures e == "MariaDB" <==> Php.Contains(Php.Lower(version), "mariadb")
    ensures e == "MySQL" <==> !Php.Contains(Php.Lower(version), "mariadb")
  {
    if Php.Contains(Php.Lower(version), "mariadb") then "MariaDB" else "MySQL"
  }

  /** `get_database_info`. Without a version answer the engine stays MySQL with version "";
      size figures are filled in only when the table query returns rows, and then the
      total is the sum of data and index lengths. `totalSize == None` stands for the
      default integer 0, and `totalSizeBytes == None` for the key being absent. */
  method GetDatabaseInfo(versionAnswer: Option<string>, tables: seq<TableStatus>,
                         charset: string, collate: string, prefix: string)
    returns (info: DatabaseInfo)
    ensures Php.EmptyOrNull(versionAnswer) ==> info.engine == "MySQL" && info.version == ""
    ensures !Php.EmptyOrNull(versionAnswer) ==> info.version == versionAnswer.value && info.engine == Engine(versionAnswer.value)
    ensures tables == [] ==> info.tablesCount == 0 && info.totalSize.None? && info.totalSizeBytes.None?
    ensures tables != [] ==> info.tablesCount == |tables| && info.totalSizeBytes == Some(TablesBytes(tables))
                             && info.totalSize == Some(FormatBytes(TablesBytes(tables)))
  {
    info := DatabaseInfo("MySQL", "", charset, collate, prefix, 0, None, None);
    if !Php.EmptyOrNull(versionAnswer) {
      info := info.(version := versionAnswer.value);
      if Php.Contains(Php.Lower(versionAnswer.value), "mariadb") {
        info := info.(engine := "MariaDB");
      }
    }
    if tables != [] {
      var total := 0;
      var i := 0;
      while i < |tables|
        invariant 0 <= i <= |tables|
        invariant total == TablesBytes(tables[..i])
      {
        assert tables[..i + 1][..i] == tables[..i];
        total := total + TableBytes(tables[i]);
        i := i + 1;
      }
      assert tables[..i] == tables;
      info := info.(tablesCount := |tables|, totalSize := Some(FormatBytes(total)), totalSizeBytes := Some(total));
    }
  }

  // ---------------------------------------------------------------- web server

  datatype WebServer = Apache | Nginx | LiteSpeed | Iis | OtherServer

  /** The marker each known server is recognised by. */
  function Marker(w: WebServer): string {
    match w
    case Apache => "apache"
    case Nginx => "nginx"
    case LiteSpeed => "litespeed"
    case Iis => "iis"
    case OtherServer => ""
  }

  /** The first of apache, nginx, litespeed, iis that occurs (case-insensitively) in the
      SERVER_SOFTWARE string, else Other. */
  function ClassifyWebServer(software: string): (w: WebServer)
    ensures w != OtherServer ==> Php.Contains(Php.Lower(software), Marker(w))
    ensures w == OtherServer <==> forall v :: v != OtherServer ==> !Php.Contains(Php.Lower(software), Marker(v))
    ensures w == Nginx ==> !Php.Contains(Php.Lower(software), "apache")
    ensures w == LiteSpeed ==> !Php.Contains(Php.Lower(software), "apache") && !Php.Contains(Php.Lower(software), "nginx")
    ensures w == Iis ==> !Php.Contains(Php.Lower(software), "apache") && !Php.Contains(Php.Lower(software), "nginx")
                         && !Php.Contains(Php.Lower(software), "litespeed")
  {
    var s := Php.Lower(software);
    if Php.Contains(s, "apache") then Apache
    else if Php.Contains(s, "nginx") then Nginx
    else if Php.Contains(s, "litespeed") then LiteSpeed
    else if Php.Contains(s, "iis") then Iis
    else OtherServer
  }

  datatype ServerSummary = ServerSummary(software: string, ip: string, documentRoot: string, webServer: WebServer)

  /** `get_server_info`: a missing SERVER_SOFTWARE reads as "Unknown", a missing
      SERVER_ADDR as "", a missing DOCUMENT_ROOT as ABSPATH. */
  function GetServerInfo(software: Option<string>, addr: Option<string>, documentRoot: Option<string>, abspath: string)
    : (s: ServerSummary)
    ensures s.software == software.GetOr("Unknown") && s.ip == addr.GetOr("")
    ensures s.documentRoot == documentRoot.GetOr(abspath)
    ensures s.webServer == ClassifyWebServer(s.software)
  {
    var sw := software.GetOr("Unknown");
    ServerSummary(sw, addr.GetOr(""), documentRoot.GetOr(abspath), ClassifyWebServer(sw))
  }

  /** A server that does not say what it is ("Unknown") is classified as Other. */
  lemma MissingSoftwareIsOther(addr: Option<string>, documentRoot: Option<string>, abspath: string)
    ensures GetServerInfo(None, addr, documentRoot, abspath).webServer == OtherServer
  {
    var s := Php.Lower("Unknown");
    assert s == "unknown";
    Php.NotContainsLonger(s, "litespeed");
    LetterMissing(s, "apache", 0);
    LetterMissing(s, "nginx", 1);
    LetterMissing(s, "iis", 0);
  }

  /** A typical Apache banner is recognised whatever its case. */
  lemma ApacheBannerIsApache()
    ensures ClassifyWebServer("Apache/2.4") == Apache
  {
    var a := Php.Lower("Apache/2.4");
    assert a[..6] == "apache";
    Php.ContainsAt(a, "apache", 0);
  }

  /** A needle with a letter that never occurs in `s` does not occur in `s`. */
  lemma {:induction false} LetterMissing(s: string, needle: string, k: nat)
    requires k < |needle| && forall i :: 0 <= i < |s| ==> s[i] != needle[k]
    ensures !Php.Contains(s, needle)
    decreases |s|
  {
    if k < |s| {
      assert s[k] != needle[k];
    }
    if |s| > 0 {
      LetterMissing(s[1..], needle, k);
    }
  }

  // ---------------------------------------------------------------- directory sizes

  /** What a directory walk meets: a file with its size, a directory, or anything else
      (a broken link, a socket) which is neither. */
  datatype Node = File(size: nat) | Directory(children: seq<Node>) | Special

  /** The entries RecursiveIteratorIterator (SELF_FIRST, dots skipped) yields below
      `nodes`: each entry, then, for a directory, everything under it. */
  function Walk(nodes: seq<Node>): (entries: seq<Node>)
    decreases nodes
  {
    if nodes == [] then []
    else [nodes[0]] + (if nodes[0].Directory? then Walk(nodes[0].children) else []) + Walk(nodes[1..])
  }

  /** The sizes of the file entries in a flat sequence. */
  function FileBytes(entries: seq<Node>): (bytes: nat) {
    if entries == [] then 0
    else FileBytes(entries[..|entries| - 1]) + (if entries[|entries| - 1].File? then entries[|entries| - 1].size else 0)
  }

  /** The total size of the files in a forest, by structure. */
  function TreeBytes(nodes: seq<Node>): (bytes: nat)
    decreases nodes
  {
    if nodes == [] then 0
    else (match nodes[0]
          case File(n) => n
          case Directory(children) => TreeBytes(children)
          case Special => 0) + TreeBytes(nodes[1..])
  }

  lemma {:induction false} FileBytesAppend(a: seq<Node>, b: seq<Node>)
    ensures FileBytes(a + b) == FileBytes(a) + FileBytes(b)
    decreases |b|
  {
    if b == [] {
      assert a + b == a;
    } else {
      assert (a + b)[..|a + b| - 1] == a + b[..|b| - 1];
      FileBytesAppend(a, b[..|b| - 1]);
    }
  }

  /** Summing the files the walk meets gives the structural total. */
  lemma {:induction false} WalkCountsEveryFileOnce(nodes: seq<Node>)
    ensures FileBytes(Walk(nodes)) == TreeBytes(nodes)
    decreases nodes
  {
    if nodes != [] {
      var head := [nodes[0]];
      var below := if nodes[0].Directory? then Walk(nodes[0].children) else [];
      var rest := Walk(nodes[1..]);
      FileBytesAppend(head + below, rest);
      FileBytesAppend(head, below);
      if nodes[0].Directory? {
        WalkCountsEveryFileOnce(nodes[0].children);
      }
      WalkCountsEveryFileOnce(nodes[1..]);
    }
  }

  /** `get_directory_size`: 0 unless the path is a directory, otherwise the sum of the
      sizes of the file entries under it. */
  method GetDirectorySize(root: Node) returns (size: nat)
    ensures !root.Directory? ==> size == 0
    ensures root.Directory? ==> size == TreeBytes(root.children)
  {
    size := 0;
    if !root.Directory? {
      return;
    }
    var entries := Walk(root.children);
    var i := 0;
    while i < |entries|
      invariant 0 <= i <= |entries|
      invariant size == FileBytes(entries[..i])
    {
      assert entries[..i + 1][..i] == entries[..i];
      if entries[i].File? {
        size := size + entries[i].size;
      }
      i := i + 1;
    }
    assert entries[..i] == entries;
    WalkCountsEveryFileOnce(root.children);
  }

  // ---------------------------------------------------------------- disk

  /** The disk figures: the all-zero defaults, or total, free and used bytes. */
  datatype DiskFigures = Unavailable | Available(total: Formatted, totalBytes: int, free: Formatted, freeBytes: int,
                                                 used: Formatted, usedBytes: int)

  datatype DiskInfo = DiskInfo(figures: DiskFigures, wordpressSize: Formatted, wordpressSizeBytes: nat,
                               uploadsSize: Formatted, uploadsSizeBytes: nat)

  /** `get_disk_info`. The figures stay at their defaults unless both space queries
      exist and both answer; then used = total - free. The WordPress and uploads sizes
      are added in every case. */
  method GetDiskInfo(functionsExist: bool, total: Option<int>, free: Option<int>, wordpressRoot: Node, uploadsRoot: Node)
    returns (d: DiskInfo)
    ensures !(functionsExist && total.Some? && free.Some?) ==> d.figures == Unavailable
    ensures functionsExist && total.Some? && free.Some? ==>
              d.figures.Available? && d.figures.totalBytes == total.value && d.figures.freeBytes == free.value
              && d.figures.usedBytes == total.value - free.value
              && d.figures.total == FormatBytes(total.value) && d.figures.free == FormatBytes(free.value)
              && d.figures.used == FormatBytes(total.value - free.value)
    ensures d.wordpressSizeBytes == (if wordpressRoot.Directory? then TreeBytes(wordpressRoot.children) else 0)
    ensures d.uploadsSizeBytes == (if uploadsRoot.Directory? then TreeBytes(uploadsRoot.children) else 0)
    ensures d.wordpressSize == FormatBytes(d.wordpressSizeBytes) && d.uploadsSize == FormatBytes(d.uploadsSizeBytes)
  {
    var figures := Unavailable;
    if functionsExist && total.Some? && free.Some? {
      var used := total.value - free.value;
      figures := Available(FormatBytes(total.value), total.value, FormatBytes(free.value), free.value,
                           FormatBytes(used), used);
    }
    var wp := GetDirectorySize(wordpressRoot);
    var uploads := GetDirectorySize(uploadsRoot);
    d := DiskInfo(figures, FormatBytes(wp), wp, FormatBytes(uploads), uploads);
  }
}
