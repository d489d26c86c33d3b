/** The naming and addressing rules of the Google Drive adapter: the compact timestamp,
    the vehicle folder name, the category's parent folder, the photo file name, the public
    image URL and the shape of a folder listing. */
module DriveNaming {
  import opened Basics

  /** The errors the adapter raises itself; every failure of a Drive call is `ApiError`. */
  datatype DriveError = ParentFolderNotFound(category: string) | ApiError

  // ---------------------------------------------------------------------------------------
  // Timestamp

  /** The characters of the class `[-:T.]`. */
  predicate IsIsoSeparator(c: char)
  {
    c == '-' || c == ':' || c == 'T' || c == '.'
  }

  predicate NoSeparators(s: string)
  {
    forall i :: 0 <= i < |s| ==> !IsIsoSeparator(s[i])
  }

  /** `.replace(/[-:T.]/g, '')`. */
  function StripIsoSeparators(s: string): (r: string)
    ensures NoSeparators(r)
    ensures |r| <= |s|
  {
    if s == [] then []
    else if IsIsoSeparator(s[0]) then StripIsoSeparators(s[1..])
    else [s[0]] + StripIsoSeparators(s[1..])
  }

  /** `.slice(0, n)`. */
  function Take(s: string, n: nat): (r: string)
    ensures |r| == if |s| <= n then |s| else n
    ensures r == s[..|r|]
  {
    if |s| <= n then s else s[..n]
  }

  /** The folder-name suffix: the clock's ISO-8601 text without separators, cut to 14
      characters. The clock reading is an input. */
  function CompactTimestamp(iso: string): (r: string)
    ensures |r| <= 14 && NoSeparators(r)
  {
    Take(StripIsoSeparators(iso), 14)
  }

  /** `Date.prototype.toISOString` for a four-digit year: `YYYY-MM-DDTHH:mm:ss.sssZ`. */
  function IsoString(y: string, mo: string, d: string, h: string, mi: string, sec: string, ms: string): (r: string)
  {
    y + "-" + mo + "-" + d + "T" + h + ":" + mi + ":" + sec + "." + ms + "Z"
  }

  lemma {:induction false} StripConcat(a: string, b: string)
    ensures StripIsoSeparators(a + b) == StripIsoSeparators(a) + StripIsoSeparators(b)
    decreases |a|
  {
    if a == [] {
      assert a + b == b;
    } else {
      assert (a + b)[0] == a[0];
      assert (a + b)[1..] == a[1..] + b;
      StripConcat(a[1..], b);
    }
  }

  lemma {:induction false} StripPlain(s: string)
    requires NoSeparators(s)
    ensures StripIsoSeparators(s) == s
    decreases |s|
  {
    if s != [] {
      StripPlain(s[1..]);
    }
  }

  lemma DigitsHaveNoSeparators(s: string)
    requires AllDigits(s)
    ensures NoSeparators(s)
  {
  }

  /** Appending separator-free text survives the stripping unchanged. */
  lemma StripAppendPlain(a: string, b: string)
    requires NoSeparators(b)
    ensures StripIsoSeparators(a + b) == StripIsoSeparators(a) + b
  {
    StripConcat(a, b);
    StripPlain(b);
  }

  /** Appending one separator adds nothing. */
  lemma StripAppendSeparator(a: string, c: char)
    requires IsIsoSeparator(c)
    ensures StripIsoSeparators(a + [c]) == StripIsoSeparators(a)
  {
    StripConcat(a, [c]);
    assert [c][1..] == [];
  }

  /** For a standard ISO string the timestamp is `YYYYMMDDHHmmss`. */
  lemma CompactTimestampOfIso(y: string, mo: string, d: string, h: string, mi: string, sec: string, ms: string)
    requires |y| == 4 && |mo| == 2 && |d| == 2 && |h| == 2 && |mi| == 2 && |sec| == 2 && |ms| == 3
    requires AllDigits(y) && AllDigits(mo) && AllDigits(d) && AllDigits(h)
    requires AllDigits(mi) && AllDigits(sec) && AllDigits(ms)
    ensures CompactTimestamp(IsoString(y, mo, d, h, mi, sec, ms)) == y + mo + d + h + mi + sec
  {
    DigitsHaveNoSeparators(y); DigitsHaveNoSeparators(mo); DigitsHaveNoSeparators(d);
    DigitsHaveNoSeparators(h); DigitsHaveNoSeparators(mi); DigitsHaveNoSeparators(sec);
    DigitsHaveNoSeparators(ms);
    StripPlain(y);
    StripAppendSeparator(y, '-');
    StripAppendPlain(y + "-", mo);
    StripAppendSeparator(y + "-" + mo, '-');
    StripAppendPlain(y + "-" + mo + "-", d);
    StripAppendSeparator(y + "-" + mo + "-" + d, 'T');
    StripAppendPlain(y + "-" + mo + "-" + d + "T", h);
    StripAppendSeparator(y + "-" + mo + "-" + d + "T" + h, ':');
    StripAppendPlain(y + "-" + mo + "-" + d + "T" + h + ":", mi);
    StripAppendSeparator(y + "-" + mo + "-" + d + "T" + h + ":" + mi, ':');
    StripAppendPlain(y + "-" + mo + "-" + d + "T" + h + ":" + mi + ":", sec);
    StripAppendSeparator(y + "-" + mo + "-" + d + "T" + h + ":" + mi + ":" + sec, '.');
    StripAppendPlain(y + "-" + mo + "-" + d + "T" + h + ":" + mi + ":" + sec + ".", ms);
    StripAppendPlain(y + "-" + mo + "-" + d + "T" + h + ":" + mi + ":" + sec + "." + ms, "Z");
    var digits := y + mo + d + h + mi + sec;
    assert StripIsoSeparators(IsoString(y, mo, d, h, mi, sec, ms)) == digits + ms + "Z";
    assert (digits + ms + "Z")[..14] == digits;
  }

  // ---------------------------------------------------------------------------------------
  // Folder name

  /** The characters `String.prototype.trim` removes: white space and line terminators. */
  predicate IsJsSpace(c: char)
  {
    c == ' ' || c == '\t' || c == '\n' || c == '\r' || c == '\U{B}' || c == '\U{C}'
    || c == '\U{A0}' || c == '\U{1680}' || ('\U{2000}' <= c <= '\U{200A}')
    || c == '\U{2028}' || c == '\U{2029}' || c == '\U{202F}' || c == '\U{205F}'
    || c == '\U{3000}' || c == '\U{FEFF}'
  }

  /** Drops the leading white space. */
  function TrimStart(s: string): (r: string)
    ensures |r| <= |s| && r == s[|s| - |r|..]
    ensures forall i :: 0 <= i < |s| - |r| ==> IsJsSpace(s[i])
    ensures r == [] || !IsJsSpace(r[0])
  {
    if s != [] && IsJsSpace(s[0]) then TrimStart(s[1..]) else s
  }

  /** Drops the trailing white space. */
  function TrimEnd(s: string): (r: string)
    ensures |r| <= |s| && r == s[..|r|]
    ensures forall i :: |r| <= i < |s| ==> IsJsSpace(s[i])
    ensures r == [] || !IsJsSpace(r[|r| - 1])
  {
    if s != [] && IsJsSpace(s[|s| - 1]) then TrimEnd(s[..|s| - 1]) else s
  }

  /** `r` is the slice of `s` that starts at `a`, and everything of `s` before and after
      that slice is white space. */
  predicate OuterSpaceRemoved(s: string, r: string, a: int)
  {
    0 <= a <= |s| - |r| && r == s[a..a + |r|]
    && (forall i :: 0 <= i < a ==> IsJsSpace(s[i]))
    && (forall i :: a + |r| <= i < |s| ==> IsJsSpace(s[i]))
  }

  /** `String.prototype.trim`: only the outer white space goes; the result neither starts
      nor ends with white space. */
  function Trim(s: string): (r: string)
    ensures |r| <= |s|
    ensures exists a :: OuterSpaceRemoved(s, r, a)
    ensures r == [] || (!IsJsSpace(r[0]) && !IsJsSpace(r[|r| - 1]))
  {
    var t := TrimStart(s);
    var r := TrimEnd(t);
    SpaceAroundSlice(s, t, r);
    r
  }

  /** A suffix after white space, cut before white space, is a slice with only white space
      around it. */
  lemma SpaceAroundSlice(s: string, t: string, r: string)
    requires |r| <= |t| <= |s| && t == s[|s| - |t|..] && r == t[..|r|]
    requires forall i :: 0 <= i < |s| - |t| ==> IsJsSpace(s[i])
    requires forall i :: |r| <= i < |t| ==> IsJsSpace(t[i])
    ensures OuterSpaceRemoved(s, r, |s| - |t|)
  {
    var a := |s| - |t|;
    assert r == s[a..a + |r|];
    forall i | a + |r| <= i < |s|
      ensures IsJsSpace(s[i])
    {
      assert |r| <= i - a < |t| && s[i] == t[i - a];
    }
  }

  /** Any slice that leaves only white space around it and has no white space at either end
      is what `trim` returns: the trimmed text is unique. */
  lemma {:induction false} TrimUnique(s: string, r: string, a: int)
    requires OuterSpaceRemoved(s, r, a)
    requires r == [] || (!IsJsSpace(r[0]) && !IsJsSpace(r[|r| - 1]))
    ensures r == Trim(s)
  {
    var t := Trim(s);
    var b :| OuterSpaceRemoved(s, t, b);
    // Both slices start at the first non-space character and end at the last one.
    if r != [] {
      assert s[a] == r[0] && s[a + |r| - 1] == r[|r| - 1];
    }
    if t != [] {
      assert s[b] == t[0] && s[b + |t| - 1] == t[|t| - 1];
    }
    if r != [] && t != [] {
      assert a == b;
      assert |r| == |t|;
    }
  }

  /** Text that neither starts nor ends with white space is left as it is. */
  lemma TrimUnpadded(s: string)
    requires s == [] || (!IsJsSpace(s[0]) && !IsJsSpace(s[|s| - 1]))
    ensures Trim(s) == s
  {
  }

  /** `versao || ''`: an absent trim level reads as empty text. */
  function VersaoText(versao: Option<string>): (r: string)
    ensures versao == None ==> r == ""
    ensures versao.Some? ==> r == versao.value
  {
    match versao
    case None => ""
    case Some(v) => v
  }

  /** The vehicle folder's name: the five parts joined by single spaces, then outer-trimmed. */
  function FolderName(marca: string, modelo: string, versao: Option<string>, ano: string, timestamp: string): (r: string)
    ensures |r| <= |marca| + |modelo| + |VersaoText(versao)| + |ano| + |timestamp| + 4
    ensures exists a ::
      OuterSpaceRemoved(marca + " " + modelo + " " + VersaoText(versao) + " " + ano + " " + timestamp, r, a)
    ensures r == [] || (!IsJsSpace(r[0]) && !IsJsSpace(r[|r| - 1]))
  {
    Trim(marca + " " + modelo + " " + VersaoText(versao) + " " + ano + " " + timestamp)
  }

  /** When the make does not start, and the timestamp does not end, with white space, the
      trim removes nothing; in particular an absent or empty trim level leaves two spaces
      between the model and the year. */
  lemma FolderNameJoined(marca: string, modelo: string, versao: Option<string>, ano: string, timestamp: string)
    requires marca != [] && !IsJsSpace(marca[0])
    requires timestamp != [] && !IsJsSpace(timestamp[|timestamp| - 1])
    ensures FolderName(marca, modelo, versao, ano, timestamp)
      == marca + " " + modelo + " " + VersaoText(versao) + " " + ano + " " + timestamp
    ensures VersaoText(versao) == "" ==>
      (FolderName(marca, modelo, versao, ano, timestamp) == marca + " " + modelo + "  " + ano + " " + timestamp)
  {
    var raw := marca + " " + modelo + " " + VersaoText(versao) + " " + ano + " " + timestamp;
    assert raw[0] == marca[0];
    assert raw[|raw| - 1] == timestamp[|timestamp| - 1];
    TrimUnpadded(raw);
    if VersaoText(versao) == "" {
      assert marca + " " + modelo + " " + "" + " " == marca + " " + modelo + "  ";
    }
  }

  /** With the clock at a standard ISO instant, the folder is named by the joined parts and
      the fourteen timestamp digits. */
  lemma FolderNameAt(marca: string, modelo: string, versao: Option<string>, ano: string,
                     y: string, mo: string, d: string, h: string, mi: string, sec: string, ms: string)
    requires marca != [] && !IsJsSpace(marca[0])
    requires |y| == 4 && |mo| == 2 && |d| == 2 && |h| == 2 && |mi| == 2 && |sec| == 2 && |ms| == 3
    requires AllDigits(y) && AllDigits(mo) && AllDigits(d) && AllDigits(h)
    requires AllDigits(mi) && AllDigits(sec) && AllDigits(ms)
    ensures FolderName(marca, modelo, versao, ano, CompactTimestamp(IsoString(y, mo, d, h, mi, sec, ms)))
      == marca + " " + modelo + " " + VersaoText(versao) + " " + ano + " " + (y + mo + d + h + mi + sec)
  {
    CompactTimestampOfIso(y, mo, d, h, mi, sec, ms);
    var ts := y + mo + d + h + mi + sec;
    assert ts[|ts| - 1] == sec[1];
    FolderNameJoined(marca, modelo, versao, ano, ts);
  }

  // ---------------------------------------------------------------------------------------
  // Parent folder

  /** The four categories that have a parent folder. */
  const Categories: seq<string> := ["Carro", "Picape", "Moto", "Van/Utilit\U{E1}rio"]

  /** The environment variable holding each category's parent folder id. */
  function EnvVar(category: string): (r: string)
    requires category in Categories
  {
    if category == "Carro" then "GOOGLE_DRIVE_FOLDER_CARRO"
    else if category == "Picape" then "GOOGLE_DRIVE_FOLDER_PICAPE"
    else if category == "Moto" then "GOOGLE_DRIVE_FOLDER_MOTO"
    else "GOOGLE_DRIVE_FOLDER_VAN"
  }

  /** `process.env[name]`: `undefined` when the variable is unset. */
  function EnvLookup(env: map<string, string>, name: string): (r: Option<string>)
  {
    if name in env then Some(env[name]) else None
  }

  /** `PARENT_FOLDERS`, read from the environment once. */
  function ParentFolders(env: map<string, string>): (r: map<string, Option<string>>)
    ensures forall c :: c in r <==> c in Categories
    ensures forall c :: c in Categories ==> (r[c].Some? <==> EnvVar(c) in env)
    ensures forall c :: c in Categories && r[c].Some? ==> r[c].value == env[EnvVar(c)]
  {
    map c | c in Categories :: EnvLookup(env, EnvVar(c))
  }

  /** `PARENT_FOLDERS[tipoVeiculo]` and the check on it: an unknown category, or one whose
      variable is unset or empty, is refused. */
  function ParentFolderId(env: map<string, string>, category: string): (r: Result<string, DriveError>)
    ensures r.Success? <==>
      category in Categories && EnvVar(category) in env && env[EnvVar(category)] != ""
    ensures r.Success? ==> r.value == env[EnvVar(category)]
    ensures r.Failure? ==> r.error == ParentFolderNotFound(category)
  {
    var folders := ParentFolders(env);
    if category !in folders then Failure(ParentFolderNotFound(category))
    else match folders[category]
      case None => Failure(ParentFolderNotFound(category))
      case Some(id) => if id == "" then Failure(ParentFolderNotFound(category)) else Success(id)
  }

  // ---------------------------------------------------------------------------------------
  // Photo file name

  /** `name.split('.').pop()`: the text after the last dot, or the whole name without one. */
  function AfterLastDot(s: string): (r: string)
    ensures '.' !in r
    ensures |r| <= |s| && r == s[|s| - |r|..]
    ensures |r| < |s| ==> s[|s| - |r| - 1] == '.'
  {
    if s == [] then []
    else if s[|s| - 1] == '.' then []
    else AfterLastDot(s[..|s| - 1]) + [s[|s| - 1]]
  }

  /** A name without a dot is its own extension. */
  lemma AfterLastDotWhole(s: string)
    requires '.' !in s
    ensures AfterLastDot(s) == s
  {
  }

  /** The extension is what follows the last dot. */
  lemma AfterLastDotSplit(a: string, b: string)
    requires '.' !in b
    ensures AfterLastDot(a + "." + b) == b
  {
    var s := a + "." + b;
    var r := AfterLastDot(s);
    assert s[|a|] == '.';
    assert s[|a| + 1..] == b;
  }

  /** The decimal text of a number, as template interpolation writes it. */
  function NatToString(n: nat): (r: string)
    ensures r != [] && AllDigits(r)
  {
    if n < 10 then [('0' as int + n) as char]
    else NatToString(n / 10) + [('0' as int + n % 10) as char]
  }

  /** The number a digit string denotes. */
  function DigitsValue(s: string): (n: nat)
    requires AllDigits(s)
  {
    if s == [] then 0 else 10 * DigitsValue(s[..|s| - 1]) + (s[|s| - 1] as int - '0' as int)
  }

  lemma {:induction false} DigitsValueOfNatToString(n: nat)
    ensures DigitsValue(NatToString(n)) == n
  {
    if n >= 10 {
      DigitsValueOfNatToString(n / 10);
      var s := NatToString(n);
      assert s[..|s| - 1] == NatToString(n / 10);
    }
  }

  /** `foto_<ordem>.<extension of the original name>`: the renamed file keeps the original
      extension. */
  function FotoName(ordem: nat, originalName: string): (r: string)
    ensures |r| == 6 + |NatToString(ordem)| + |AfterLastDot(originalName)|
    ensures r[..5] == "foto_"
    ensures r[5..5 + |NatToString(ordem)|] == NatToString(ordem)
    ensures AfterLastDot(r) == AfterLastDot(originalName)
  {
    var stem := "foto_";
    var d := NatToString(ordem);
    var ext := AfterLastDot(originalName);
    var r := stem + d + "." + ext;
    AfterLastDotSplit(stem + d, ext);
    NameParts(stem, d, ext);
    r
  }

  /** The parts of `<p><d>.<e>` are found back at their positions. */
  lemma NameParts(p: string, d: string, e: string)
    ensures (p + d + "." + e)[..|p|] == p
    ensures (p + d + "." + e)[|p|..|p| + |d|] == d
  {
    var r := p + d + "." + e;
    assert r == p + (d + ("." + e));
    assert r[|p|..] == d + ("." + e);
  }

  lemma CharOfPrefix(d: string, rest: string, i: nat)
    requires i < |d|
    ensures (d + rest)[i] == d[i] && d[i] in d
  {
  }

  lemma DotAfter(d: string, e: string)
    ensures (d + "." + e)[|d|] == '.'
  {
  }

  /** A text without dots, a dot, then anything: the dot-free part is determined. */
  lemma DotSplitUnique(d1: string, e1: string, d2: string, e2: string)
    requires '.' !in d1 && '.' !in d2
    requires d1 + "." + e1 == d2 + "." + e2
    ensures d1 == d2 && e1 == e2
  {
    var s := d1 + "." + e1;
    if |d1| < |d2| {
      CharOfPrefix(d2, "." + e2, |d1|);
      DotAfter(d1, e1);
      assert false;
    } else if |d2| < |d1| {
      CharOfPrefix(d1, "." + e1, |d2|);
      DotAfter(d2, e2);
      assert false;
    }
    assert d1 == s[..|d1|];
    assert d2 == s[..|d2|];
    assert e1 == s[|d1| + 1..];
    assert e2 == s[|d2| + 1..];
  }

  /** The part of a photo name before the extension holds no dot. */
  lemma FotoStemHasNoDot(ordem: nat)
    ensures '.' !in "foto_" + NatToString(ordem)
  {
    var digits := NatToString(ordem);
    var stem := "foto_" + digits;
    forall i | 0 <= i < |stem|
      ensures stem[i] != '.'
    {
      if i >= 5 {
        assert stem[i] == digits[i - 5];
      }
    }
  }

  /** Photos at different positions get different names. */
  lemma FotoNameDistinct(a: nat, b: nat, name1: string, name2: string)
    requires FotoName(a, name1) == FotoName(b, name2)
    ensures a == b
  {
    var d1 := "foto_" + NatToString(a);
    var d2 := "foto_" + NatToString(b);
    FotoStemHasNoDot(a);
    FotoStemHasNoDot(b);
    DotSplitUnique(d1, AfterLastDot(name1), d2, AfterLastDot(name2));
    assert NatToString(a) == d1[5..];
    assert NatToString(b) == d2[5..];
    DigitsValueOfNatToString(a);
    DigitsValueOfNatToString(b);
  }

  // ---------------------------------------------------------------------------------------
  // Public URL and listing

  const UrlPrefix := "https://drive.google.com/uc?export=view&id="

  /** The direct-view URL of a Drive object. */
  function PhotoUrl(id: string): (r: string)
    ensures |r| == |UrlPrefix| + |id|
    ensures r[..|UrlPrefix|] == UrlPrefix && r[|UrlPrefix|..] == id
  {
    UrlPrefix + id
  }

  /** Reads the object id back out of a direct-view URL. */
  function IdOfUrl(url: string): (r: Option<string>)
  {
    if |url| >= |UrlPrefix| && url[..|UrlPrefix|] == UrlPrefix then Some(url[|UrlPrefix|..]) else None
  }

  /** The URL names exactly the object it was built from. */
  lemma PhotoUrlRoundTrip(id: string)
    ensures IdOfUrl(PhotoUrl(id)) == Some(id)
  {
    assert PhotoUrl(id)[..|UrlPrefix|] == UrlPrefix;
    assert PhotoUrl(id)[|UrlPrefix|..] == id;
  }

  /** One file of the Drive listing response. */
  datatype ApiFile = ApiFile(id: string, name: string, webViewLink: string)

  datatype PhotoInfo = PhotoInfo(id: string, name: string, url: string)

  /** `response.data.files.map(...)`: one entry per listed file, in the listing's order. */
  function PhotoInfos(files: seq<ApiFile>): (r: seq<PhotoInfo>)
    ensures |r| == |files|
    ensures forall i :: 0 <= i < |files| ==>
      r[i].id == files[i].id && r[i].name == files[i].name && IdOfUrl(r[i].url) == Some(files[i].id)
  {
    if files == [] then []
    else
      var last := files[|files| - 1];
      PhotoUrlRoundTrip(last.id);
      PhotoInfos(files[..|files| - 1]) + [PhotoInfo(last.id, last.name, PhotoUrl(last.id))]
  }
}
