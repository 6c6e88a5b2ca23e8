/** `output_writers.hpp`: how an output file is named and where it goes.
    A writer is modelled by the file it would write to (and, for CSV, its
    comment prefix); opening the stream, the clock behind the timestamp and
    directory creation are not modelled. Paths follow POSIX
    `std::filesystem::path` joining. */
module OutputWriters {
  import opened Wrappers
  import opened Text

  /** An output sink: a CSV stream writer or a JSON (structured) writer. */
  datatype Writer = CsvWriter(path: string, commentPrefix: string) | JsonWriter(path: string)

  /** Which writer type `create_writer` is instantiated with. */
  datatype WriterKind = Csv | Json

  /** A sink as the sampler sees it: a real writer, or the no-op base writer
      substituted for an absent one. */
  datatype Sink = NoOpSink | WriterSink(writer: Writer)

  /** Substitutes the no-op writer for an absent (null) one. */
  function SinkOf(w: Option<Writer>): (s: Sink)
    ensures s.NoOpSink? <==> w.None?
    ensures w.Some? ==> s.writer == w.value
  {
    match w
    case None => NoOpSink
    case Some(x) => WriterSink(x)
  }

  /** `generate_filename`: model, timestamp, "chain" and the decimal chain id,
      and the data type, joined by underscores, then the extension. */
  function GenerateFilename(modelName: string, timestamp: string, chainId: nat,
                            dataType: string, extension: string): (r: string)
    ensures var head := modelName + "_" + timestamp + "_chain";
            var tail := "_" + dataType + extension;
            && |r| == |head| + |NatToString(chainId)| + |tail|
            && r[..|head|] == head
            && r[|head|..|r| - |tail|] == NatToString(chainId)
            && r[|r| - |tail|..] == tail
  {
    var head := modelName + "_" + timestamp + "_chain";
    var tail := "_" + dataType + extension;
    var r := modelName + "_" + timestamp + "_chain" + NatToString(chainId) + "_" + dataType + extension;
    assert r == head + NatToString(chainId) + tail;
    r
  }

  /** Chain numbers below ten print as a single digit. */
  lemma SmallChainIds()
    ensures NatToString(0) == "0" && NatToString(1) == "1" && NatToString(2) == "2"
  {
    assert DigitChar(0) == '0' && DigitChar(1) == '1' && DigitChar(2) == '2';
  }

  /** A typical name, as the source's tests spell it out. */
  lemma FilenameExample()
    ensures GenerateFilename("test_model", "20250522_143000", 2, "sample", ".csv")
            == "test_model_20250522_143000_chain2_sample.csv"
  {
    SmallChainIds();
    var head := "test_model" + "_" + "20250522_143000" + "_chain";
    assert head == "test_model_20250522_143000_chain";
    var tail := "_" + "sample" + ".csv";
    assert tail == "_sample.csv";
    assert GenerateFilename("test_model", "20250522_143000", 2, "sample", ".csv") == head + "2" + tail;
  }

  /** An empty model name leaves a leading underscore. */
  lemma FilenameEmptyModel()
    ensures GenerateFilename("", "20250522_143000", 1, "sample", ".csv")
            == "_20250522_143000_chain1_sample.csv"
  {
    SmallChainIds();
    var head := "" + "_" + "20250522_143000" + "_chain";
    assert head == "_20250522_143000_chain";
    var tail := "_" + "sample" + ".csv";
    assert tail == "_sample.csv";
    assert GenerateFilename("", "20250522_143000", 1, "sample", ".csv") == head + "1" + tail;
  }

  /** Chain 0 is printed as is. */
  lemma FilenameChainZero()
    ensures GenerateFilename("model", "20250522_143000", 0, "sample", ".csv")
            == "model_20250522_143000_chain0_sample.csv"
  {
    SmallChainIds();
    var head := "model" + "_" + "20250522_143000" + "_chain";
    assert head == "model_20250522_143000_chain";
    var tail := "_" + "sample" + ".csv";
    assert tail == "_sample.csv";
    assert GenerateFilename("model", "20250522_143000", 0, "sample", ".csv") == head + "0" + tail;
  }

  /** An empty extension adds nothing after the data type. */
  lemma FilenameNoExtension()
    ensures GenerateFilename("model", "20250522_143000", 1, "sample", "")
            == "model_20250522_143000_chain1_sample"
  {
    SmallChainIds();
    var head := "model" + "_" + "20250522_143000" + "_chain";
    assert head == "model_20250522_143000_chain";
    var tail := "_" + "sample" + "";
    assert tail == "_sample";
    assert GenerateFilename("model", "20250522_143000", 1, "sample", "") == head + "1" + tail;
  }

  /** A file name gives back its chain id and its data-type/extension tail:
      the decimal id ends where the first non-digit (the '_' before the
      data type) begins. */
  lemma {:induction false} FilenameDetermines(modelName: string, timestamp: string,
                                              a: nat, dataTypeA: string, extensionA: string,
                                              b: nat, dataTypeB: string, extensionB: string)
    requires GenerateFilename(modelName, timestamp, a, dataTypeA, extensionA)
             == GenerateFilename(modelName, timestamp, b, dataTypeB, extensionB)
    ensures a == b
    ensures "_" + dataTypeA + extensionA == "_" + dataTypeB + extensionB
  {
    var r := GenerateFilename(modelName, timestamp, a, dataTypeA, extensionA);
    var h := |modelName + "_" + timestamp + "_chain"|;
    var da, db := NatToString(a), NatToString(b);
    var ta, tb := "_" + dataTypeA + extensionA, "_" + dataTypeB + extensionB;
    assert r[h..|r| - |ta|] == da && r[|r| - |ta|..] == ta;
    assert r[h..|r| - |tb|] == db && r[|r| - |tb|..] == tb;
    assert ta[0] == '_' && tb[0] == '_';
    assert da == db;
    NatToStringInjective(a, b);
  }

  /** With everything else fixed, different chains get different file names. */
  lemma FilenameDistinctChains(modelName: string, timestamp: string, a: nat, b: nat,
                               dataType: string, extension: string)
    requires a != b
    ensures GenerateFilename(modelName, timestamp, a, dataType, extension)
            != GenerateFilename(modelName, timestamp, b, dataType, extension)
  {
    if GenerateFilename(modelName, timestamp, a, dataType, extension)
       == GenerateFilename(modelName, timestamp, b, dataType, extension) {
      FilenameDetermines(modelName, timestamp, a, dataType, extension, b, dataType, extension);
    }
  }

  /** A path that `std::filesystem` treats as absolute (POSIX: leading '/'). */
  predicate IsAbsolute(p: string)
  {
    |p| > 0 && p[0] == '/'
  }

  /** `create_file_path`: the file name alone when there is no directory,
      otherwise `path(dir) / filename`: an absolute file name replaces the
      directory, and one separator is inserted unless the directory already
      ends with one. */
  function CreateFilePath(outputDir: string, filename: string): (r: string)
    ensures outputDir == "" ==> r == filename
    ensures outputDir != "" && !IsAbsolute(filename) ==>
              r == (if outputDir[|outputDir| - 1] == '/' then outputDir else outputDir + "/") + filename
    ensures |filename| <= |r| && r[|r| - |filename|..] == filename
  {
    if outputDir == "" then filename
    else if IsAbsolute(filename) then filename
    else if outputDir[|outputDir| - 1] == '/' then outputDir + filename
    else outputDir + "/" + filename
  }

  /** A generated file name is absolute exactly when the model name is. */
  lemma FilenameAbsolute(modelName: string, timestamp: string, chainId: nat,
                         dataType: string, extension: string)
    ensures IsAbsolute(GenerateFilename(modelName, timestamp, chainId, dataType, extension))
            <==> IsAbsolute(modelName)
  {
    var r := GenerateFilename(modelName, timestamp, chainId, dataType, extension);
    var head := modelName + "_" + timestamp + "_chain";
    assert r[0] == head[0];
  }

  /** Within one directory, distinct file names that are both relative or
      both absolute give distinct paths. */
  lemma FilePathInjective(outputDir: string, f: string, g: string)
    requires IsAbsolute(f) == IsAbsolute(g) && f != g
    ensures CreateFilePath(outputDir, f) != CreateFilePath(outputDir, g)
  {
    if outputDir != "" && !IsAbsolute(f) {
      var prefix := if outputDir[|outputDir| - 1] == '/' then outputDir else outputDir + "/";
      assert CreateFilePath(outputDir, f) == prefix + f;
      assert CreateFilePath(outputDir, g) == prefix + g;
      assert (prefix + f)[|prefix|..] == f;
      assert (prefix + g)[|prefix|..] == g;
    }
  }

  /** The writer `create_writer` sets up: its target is the generated file
      name inside the output directory; only a CSV writer keeps the comment
      prefix. */
  function CreateWriter(kind: WriterKind, outputDir: string, modelName: string, timestamp: string,
                        chainId: nat, dataType: string, extension: string,
                        commentPrefix: string): (w: Writer)
    ensures w.path == CreateFilePath(outputDir, GenerateFilename(modelName, timestamp, chainId,
                                                                 dataType, extension))
    ensures w.CsvWriter? <==> kind == Csv
    ensures w.CsvWriter? ==> w.commentPrefix == commentPrefix
  {
    var path := CreateFilePath(outputDir, GenerateFilename(modelName, timestamp, chainId,
                                                           dataType, extension));
    match kind
    case Csv => CsvWriter(path, commentPrefix)
    case Json => JsonWriter(path)
  }
}
