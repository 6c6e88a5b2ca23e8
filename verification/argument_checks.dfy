/** The checks and per-chain lookups that the two argument headers
    (`arguments.hpp` and its older flat copy `hmc_nuts_arguments.hpp`) share
    word for word: the accepted sizes of a per-chain file list, the choice of
    a chain's file from such a list, and the error messages. */
module ArgumentChecks {
  import opened Text

  /** What a validator leaves behind: its boolean result and the caller's
      `error_message` string, which it only overwrites on failure. */
  datatype Verdict = Verdict(ok: bool, errorMessage: string)

  /** A per-chain file list (`--inits`, `--metric`) may be empty, hold one
      file shared by all chains, or hold exactly one file per chain. */
  predicate FileCountAccepted(count: nat, numChains: nat)
  {
    count == 0 || count == 1 || count == numChains
  }

  /** The file chain `chainIdx` reads: none (""), the single shared file, or
      its own entry. Indexing past the list is undefined behaviour in the
      source, hence the precondition. */
  function FileForChain(files: seq<string>, chainIdx: nat): (r: string)
    requires |files| <= 1 || chainIdx < |files|
    ensures |files| == 0 ==> r == ""
    ensures |files| == 1 ==> r == files[0]
    ensures |files| > 1 ==> r == files[chainIdx]
  {
    if |files| == 0 then "" else if |files| == 1 then files[0] else files[chainIdx]
  }

  /** An accepted list is indexed in bounds for every chain of the run. */
  lemma AcceptedListInBounds(files: seq<string>, numChains: nat, chainIdx: nat)
    requires FileCountAccepted(|files|, numChains) && chainIdx < numChains
    ensures |files| <= 1 || chainIdx < |files|
    ensures FileForChain(files, chainIdx) == "" || FileForChain(files, chainIdx) in files
  {
  }

  const ThinHead := "Error: thin ("

  /** The message for a thinning period longer than the sampling run. */
  function ThinMessage(thin: int, numSamples: int): (m: string)
    ensures StartsWith(m, ThinHead)
    ensures Contains(m, "thin") && Contains(m, "exceed")
  {
    var rest := IntToString(thin) + ") cannot ";
    var tail := " --samples (" + IntToString(numSamples) + ")";
    var m := ThinHead + rest + "exceed" + tail;
    ThinMessageShape(rest, tail);
    m
  }

  /** The thin message starts with its head, names the option and says
      "exceed", whatever numbers it carries. */
  lemma ThinMessageShape(rest: string, tail: string)
    ensures StartsWith(ThinHead + rest + "exceed" + tail, ThinHead)
    ensures Contains(ThinHead + rest + "exceed" + tail, "thin")
    ensures Contains(ThinHead + rest + "exceed" + tail, "exceed")
  {
    var m := ThinHead + rest + "exceed" + tail;
    assert m[..|ThinHead|] == ThinHead;
    ContainsInfix(ThinHead + rest, "exceed", tail);
    assert ThinHead == "Error: " + "thin" + " (";
    ContainsInfix("Error: ", "thin", " (");
    ContainsExtendRight(ThinHead, "thin", rest + "exceed" + tail);
    assert ThinHead + (rest + "exceed" + tail) == m;
  }

  /** The first words of the message about the list given to `option`. */
  function FileCountHead(option: string): string
  {
    "Error: " + option + " must"
  }

  /** The message for a per-chain file list of the wrong size; `option` is
      the command-line option it came from ("--inits" or "--metric"). */
  function FileCountMessage(option: string, numChains: nat, count: nat): (m: string)
    ensures StartsWith(m, FileCountHead(option))
    ensures Contains(m, option)
  {
    var rest := " specify either 1 file (for all chains) or " + NatToString(numChains)
                + " files (one per chain). " + "Found " + NatToString(count) + " files.";
    FileCountShape(option, rest);
    "Error: " + option + " must" + rest
  }

  /** The file-count message starts with its head and names the option. */
  lemma FileCountShape(option: string, rest: string)
    ensures StartsWith("Error: " + option + " must" + rest, FileCountHead(option))
    ensures Contains("Error: " + option + " must" + rest, option)
  {
    var head := FileCountHead(option);
    assert ("Error: " + option + " must" + rest)[..|head|] == head;
    ContainsInfix("Error: ", option, " must");
    ContainsExtendRight(head, option, rest);
  }

  /** The three messages can be told apart by their first words, so a
      message identifies the single check that produced it. */
  lemma MessagesDistinct(thin: int, numSamples: int, numChains: nat, a: nat, b: nat)
    ensures !StartsWith(FileCountMessage("--inits", numChains, a), ThinHead)
    ensures !StartsWith(FileCountMessage("--metric", numChains, a), ThinHead)
    ensures !StartsWith(ThinMessage(thin, numSamples), FileCountHead("--inits"))
    ensures !StartsWith(ThinMessage(thin, numSamples), FileCountHead("--metric"))
    ensures !StartsWith(FileCountMessage("--metric", numChains, a), FileCountHead("--inits"))
    ensures !StartsWith(FileCountMessage("--inits", numChains, b), FileCountHead("--metric"))
  {
    var inits, metric := FileCountHead("--inits"), FileCountHead("--metric");
    assert ThinHead[7] == 't' && inits[7] == '-' && metric[7] == '-';
    assert inits[9] == 'i' && metric[9] == 'm';
    PrefixesClash(FileCountMessage("--inits", numChains, a), inits, ThinHead, 7);
    PrefixesClash(FileCountMessage("--metric", numChains, a), metric, ThinHead, 7);
    PrefixesClash(ThinMessage(thin, numSamples), ThinHead, inits, 7);
    PrefixesClash(ThinMessage(thin, numSamples), ThinHead, metric, 7);
    PrefixesClash(FileCountMessage("--metric", numChains, a), metric, inits, 9);
    PrefixesClash(FileCountMessage("--inits", numChains, b), inits, metric, 9);
  }
}
