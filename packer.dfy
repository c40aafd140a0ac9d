/** `packLittlefs` and its helpers: path normalisation for the command line,
    the in-place wrapping of the packer's argument list, the size in KiB that
    is reported, and the default page and block sizes. */
module Packer {
  import opened Wrappers
  import opened JsText
  import opened JsNumber
  import opened Logging
  import opened Runner
  import opened SeqFacts

  /** `s.replace(/\\/g, "/")`: no backslash is left, each one having become a
      slash where it stood, and every other character is kept in place. */
  function ForwardSlashes(s: string): (r: string)
    ensures |r| == |s| && '\\' !in r
    ensures forall i :: 0 <= i < |s| && s[i] == '\\' ==> r[i] == '/'
    ensures forall i :: 0 <= i < |s| && s[i] != '\\' ==> r[i] == s[i]
  {
    seq(|s|, i requires 0 <= i < |s| => if s[i] == '\\' then '/' else s[i])
  }

  /** Text without a backslash is left as it is. */
  lemma {:induction false} SlashFreeKept(s: string)
    requires '\\' !in s
    ensures ForwardSlashes(s) == s
  {
    var r := ForwardSlashes(s);
    assert forall i :: 0 <= i < |s| ==> r[i] == s[i];
  }

  /** `makeOsPath`. */
  function MakeOsPath(dir: string): (r: string)
    ensures '\\' !in r
  {
    var d := ForwardSlashes(dir);
    if ' ' in d then "\"" + d + "\"" else d
  }

  /** Every backslash of the path becomes a slash, everything else stays in
      place, and the result is put in double quotes exactly when the path holds
      a space. */
  lemma {:induction false} MakeOsPathShape(dir: string)
    ensures var r := MakeOsPath(dir);
      && (' ' in dir ==>
        |r| == |dir| + 2 && r[0] == '"' && r[|r| - 1] == '"' && r[1..|r| - 1] == ForwardSlashes(dir))
      && (' ' !in dir ==> r == ForwardSlashes(dir))
  {
    var d := ForwardSlashes(dir);
    if ' ' in dir {
      var i :| 0 <= i < |dir| && dir[i] == ' ';
      assert d[i] == ' ';
      var r := "\"" + d + "\"";
      assert r[1..|r| - 1] == d;
    } else {
      assert ' ' !in d;
    }
  }

  /** A path with neither spaces nor backslashes is passed as it is. */
  lemma {:induction false} PlainPathUnchanged(dir: string)
    requires ' ' !in dir && '\\' !in dir
    ensures MakeOsPath(dir) == dir
  {
    MakeOsPathShape(dir);
    SlashFreeKept(dir);
  }

  /** Quoting is not undone: normalising an already quoted path with a space in
      it quotes it a second time. */
  lemma {:induction false} QuotedTwice(dir: string)
    requires ' ' in dir
    ensures MakeOsPath(MakeOsPath(dir)) == "\"" + MakeOsPath(dir) + "\""
  {
    var r := MakeOsPath(dir);
    MakeOsPathShape(dir);
    var i :| 0 <= i < |dir| && dir[i] == ' ';
    assert r[1..|r| - 1][i] == ' ';
    assert ' ' in r;
    SlashFreeKept(r);
  }

  /** A JavaScript array of strings that is changed in place. */
  class StringList {
    var items: seq<string>

    constructor (items: seq<string>)
      ensures this.items == items
    {
      this.items := items;
    }

    /** `push`: append at the end. */
    method Push(x: string)
      modifies this
      ensures items == old(items) + [x]
    {
      items := items + [x];
    }

    /** `unshift`: insert at the front. */
    method Unshift(x: string)
      modifies this
      ensures items == [x] + old(items)
    {
      items := [x] + items;
    }
  }

  /** `makeMklittlefsArgs`: the same array comes back, now starting with
      `--debug` and ending with `--all-files`, the old items unchanged between. */
  method MakeMklittlefsArgs(args: StringList) returns (r: StringList)
    modifies args
    ensures r == args
    ensures args.items == ["--debug"] + old(args.items) + ["--all-files"]
  {
    args.Push("--all-files");
    args.Unshift("--debug");
    return args;
  }

  /** `(dataSize >> 10) + 1`. The shift converts its operand to a signed 32-bit
      integer first and rounds towards minus infinity. For a size below 2^31
      the result is the number of whole KiB plus one: a size that is an exact
      multiple of 1024 gets one KiB more than it needs. */
  function SizeInK(dataSize: int): (k: int)
    ensures 0 <= dataSize < TwoTo31 ==> (k - 1) * 1024 <= dataSize < k * 1024
  {
    ToInt32(dataSize) / 1024 + 1
  }

  lemma SizeInKExamples()
    ensures SizeInK(0) == 1 && SizeInK(1024) == 2 && SizeInK(1500) == 2
    ensures SizeInK(-1) == 0
    ensures SizeInK(TwoTo31) == -2097151
  {
  }

  const DefaultPageSize: string := "256"
  const DefaultBlockSize: string := "4096"

  /** `given || fallback`: an absent or empty setting takes the fallback. */
  function SettingOr(given: Option<string>, fallback: string): (t: string)
    ensures given.Some? && given.value != "" ==> t == given.value
    ensures given.None? || given == Some("") ==> t == fallback
    ensures fallback != "" ==> t != ""
  {
    if given.Some? && given.value != "" then given.value else fallback
  }

  /** `stringToInt(given || fallback)`. */
  function SpiSize(given: Option<string>, fallback: string): Option<int>
  {
    StringToInt(SettingOr(given, fallback))
  }

  /** Without settings the page is 256 bytes and the block 4096. */
  lemma {:induction false} DefaultSizes(page: Option<string>, block: Option<string>)
    requires page == None || page == Some("")
    requires block == None || block == Some("")
    ensures SpiSize(page, DefaultPageSize) == Some(256)
    ensures SpiSize(block, DefaultBlockSize) == Some(4096)
  {
    var pageText, blockText := DefaultPageSize, DefaultBlockSize;
    assert SettingOr(page, DefaultPageSize) == pageText && SettingOr(block, DefaultBlockSize) == blockText;
    assert AllDigits(pageText, 10) && AllDigits(blockText, 10);
    assert pageText[..2] == "25" && "25"[..1] == "2";
    assert DigitsValue(pageText, 10) == 256;
    assert blockText[..3] == "409" && "409"[..2] == "40" && "40"[..1] == "4";
    assert DigitsValue(blockText, 10) == 4096;
    DecimalDigitsParsed(pageText);
    DecimalDigitsParsed(blockText);
  }

  /** The options `packLittlefs` reads: the image size in bytes (a number) and
      the optional page and block size settings (text). */
  datatype PackOptions = PackOptions(dataSize: int, pageSize: Option<string>, blockSize: Option<string>)

  /** The page and block sizes `packLittlefs` passes on. */
  function PageSize(options: PackOptions): Option<int>
  {
    SpiSize(options.pageSize, DefaultPageSize)
  }

  function BlockSize(options: PackOptions): Option<int>
  {
    SpiSize(options.blockSize, DefaultBlockSize)
  }

  /** The list `packLittlefs` builds before `makeMklittlefsArgs` wraps it; the
      numbers are written as a JavaScript array join writes them. */
  function ArgsCore(path: string, image: string, dataSize: int, page: Option<int>, block: Option<int>): seq<string>
  {
    ["--create", MakeOsPath(path),
     "--size", IntToDecimal(dataSize),
     "--page", NumberText(page),
     "--block", NumberText(block),
     MakeOsPath(image)]
  }

  /** The argument list handed to the packer: the built list, wrapped. */
  function PackArgs(path: string, image: string, dataSize: int, page: Option<int>, block: Option<int>): seq<string>
  {
    ["--debug"] + ArgsCore(path, image, dataSize, page, block) + ["--all-files"]
  }

  /** The packer's eleven arguments, item by item: every option is followed by
      its value, the image comes last before `--all-files`, and `--debug` takes
      no value. */
  lemma PackArgsOrder(path: string, image: string, dataSize: int, page: Option<int>, block: Option<int>)
    ensures var a := PackArgs(path, image, dataSize, page, block);
      |a| == 11 &&
      a[0] == "--debug" &&
      a[1] == "--create" && a[2] == MakeOsPath(path) &&
      a[3] == "--size" && a[4] == IntToDecimal(dataSize) &&
      a[5] == "--page" && a[6] == NumberText(page) &&
      a[7] == "--block" && a[8] == NumberText(block) &&
      a[9] == MakeOsPath(image) &&
      a[10] == "--all-files"
  {
    var create, size := MakeOsPath(path), IntToDecimal(dataSize);
    var pageText, blockText, imageArg := NumberText(page), NumberText(block), MakeOsPath(image);
    assert PackArgs(path, image, dataSize, page, block) ==
      ["--debug", "--create", create, "--size", size, "--page", pageText,
       "--block", blockText, imageArg, "--all-files"];
  }

  const FinishedLine: string := "--- Finished packing LITTLEFS file ---"

  /** `packLittlefs(mklittlefs, path, image, options)`, with `spawn` standing for
      what running the packer produces. Returns the program and arguments the
      packer is run with, and whether the call completes or throws. The channel
      receives, in order, the settings report, the command line, what running
      it logs, and the closing line unless the run threw. */
  method PackLittlefs(logger: Logger, mklittlefs: string, path: string, image: string,
                      options: PackOptions, spawn: SpawnResult)
    returns (program: string, args: seq<string>, r: Result<(), Thrown>)
    modifies logger`channel
    ensures program == MakeOsPath(mklittlefs)
    ensures args == PackArgs(path, image, options.dataSize, PageSize(options), BlockSize(options))
    ensures r == (if RunThrows(logger.level, spawn) then Failure(TypeError) else Success(()))
    ensures logger.channel == old(logger.channel)
      + Appended(logger.level, "--- Packing LITTLEFS file ---")
      + Appended(logger.level, "LITTLEFS Creating Image... (" + image + ")")
      + Appended(logger.level, LittlefsLine("program: " + mklittlefs))
      + Appended(logger.level, LittlefsLine("data   : " + path))
      + Appended(logger.level, LittlefsLine("size   : " + IntToDecimal(options.dataSize)))
      + Appended(logger.level, LittlefsLine("size   : " + IntToDecimal(SizeInK(options.dataSize)) + "K"))
      + Appended(logger.level, LittlefsLine("page   : " + NumberText(PageSize(options))))
      + Appended(logger.level, LittlefsLine("block  : " + NumberText(BlockSize(options))))
      + Appended(logger.level, "RunCommand:")
      + Appended(logger.level, program)
      + Appended(logger.level, Join(args, " "))
      + RunLog(logger.level, program, args, spawn)
      + (if r.Success? then Appended(logger.level, FinishedLine) else [])
  {
    logger.Log("--- Packing LITTLEFS file ---");
    var dataSize := options.dataSize;
    var dataSizeInK := SizeInK(dataSize);
    var spiPage := PageSize(options);
    var spiBlock := BlockSize(options);

    logger.LogImportant("LITTLEFS Creating Image... (" + image + ")");
    logger.LogLittlefs("program: " + mklittlefs);
    logger.LogLittlefs("data   : " + path);
    logger.LogLittlefs("size   : " + IntToDecimal(dataSize));
    logger.LogLittlefs("size   : " + IntToDecimal(dataSizeInK) + "K");
    logger.LogLittlefs("page   : " + NumberText(spiPage));
    logger.LogLittlefs("block  : " + NumberText(spiBlock));
    var list := new StringList(ArgsCore(path, image, dataSize, spiPage, spiBlock));
    var wrapped := MakeMklittlefsArgs(list);
    args := wrapped.items;
    program := MakeOsPath(mklittlefs);
    logger.Log("RunCommand:");
    logger.Log(program);
    logger.Log(Join(args, " "));
    var run := RunCommand(logger, program, args, spawn);
    if run.Success? {
      logger.Log(FinishedLine);
      r := Success(());
    } else {
      // the exception from `runCommand` propagates: nothing more is logged
      r := Failure(run.error);
      RightUnit(logger.channel);
    }
  }
}
