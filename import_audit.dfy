// containsImport of tests/project_audit_test.go: whether a Go source text
// imports a package, found by scanning its lines for a single import
// statement or for the path inside an `import ( … )` block. The lines are
// the pieces between newlines; the scanner's dropped trailing empty line
// and carriage returns make no difference once each line is trimmed.
module ImportAudit {
  import opened StrUtil
  import opened Wrappers

  const Quote: char := '"'
  const ImportKeyword := "import "
  const BlockOpen := "import ("
  const BlockClose := ")"

  /** What one line does to the scan: it settles the answer, panics, or
    * leaves the scan in or out of an import block. */
  datatype Step = Hit | Panic | Next(inBlock: bool)

  /** One iteration of the loop as written. A line that is a lone quote
    * inside a block passes both quote tests, and slicing it from 1 to 0
    * panics. */
  function LineStep(raw: string, inBlock: bool, importPath: string): (s: Step)
    ensures s.Panic? ==> inBlock
    ensures !inBlock && !s.Hit? ==> s == Next(TrimSpace(raw) == BlockOpen)
    ensures inBlock && TrimSpace(raw) == BlockClose ==> s == Next(false)
    ensures inBlock && s.Next? && TrimSpace(raw) != BlockClose ==> s == Next(true)
  {
    var line := TrimSpace(raw);
    if HasPrefix(line, ImportKeyword) && Contains(line, importPath) then Hit
    else if line == BlockOpen then Next(true)
    else if !inBlock then Next(false)
    else if line == BlockClose then Next(false)
    else BlockLine(TrimSpace(line), importPath)
  }

  /** A line inside a block: a quoted path, or an aliased one after the first quote. */
  function BlockLine(importLine: string, importPath: string): Step
  {
    if HasPrefix(importLine, [Quote]) && HasSuffix(importLine, [Quote]) then
      if |importLine| < 2 then Panic
      else if importLine[1..|importLine| - 1] == importPath then Hit
      else Next(true)
    else if Quote in importLine then
      var parts := Split(importLine, Quote);
      if |parts| >= 3 && parts[1] == importPath then Hit else Next(true)
    else Next(true)
  }

  /** The scan as written: `None` is the panic. */
  function Run(lines: seq<string>, inBlock: bool, importPath: string): (r: Option<bool>)
    ensures r.None? ==> exists i :: 0 <= i < |lines| && LineStep(lines[i], true, importPath).Panic?
    ensures r == Some(true) ==> exists i, b :: 0 <= i < |lines| && LineStep(lines[i], b, importPath).Hit?
  {
    if lines == [] then Some(false)
    else match LineStep(lines[0], inBlock, importPath)
      case Hit => Some(true)
      case Panic => None
      case Next(b) => Run(lines[1..], b, importPath)
  }

  /** The line step with the lone quote read as a line without a path. */
  function LineStepCorrected(raw: string, inBlock: bool, importPath: string): (s: Step)
    ensures !s.Panic?
    ensures !LineStep(raw, inBlock, importPath).Panic? ==> s == LineStep(raw, inBlock, importPath)
  {
    var s := LineStep(raw, inBlock, importPath);
    if s.Panic? then Next(inBlock) else s
  }

  /** The scan the helper is meant to be: it always answers. */
  function RunCorrected(lines: seq<string>, inBlock: bool, importPath: string): bool
  {
    if lines == [] then false
    else match LineStepCorrected(lines[0], inBlock, importPath)
      case Hit => true
      case Panic => false
      case Next(b) => RunCorrected(lines[1..], b, importPath)
  }

  /** The scan from line `i` on is the step of line `i` and the scan after it. */
  lemma RunAt(lines: seq<string>, i: nat, inBlock: bool, importPath: string)
    requires i < |lines|
    ensures Run(lines[i..], inBlock, importPath) ==
      match LineStep(lines[i], inBlock, importPath)
      case Hit => Some(true)
      case Panic => None
      case Next(b) => Run(lines[i + 1..], b, importPath)
  {
    assert lines[i..][1..] == lines[i + 1..];
  }

  /** containsImport. */
  method ContainsImport(content: string, importPath: string) returns (r: Option<bool>)
    ensures r == Run(Split(content, '\n'), false, importPath)
  {
    var lines := Split(content, '\n');
    var inImportBlock := false;
    var i := 0;
    while i < |lines|
      invariant 0 <= i <= |lines|
      invariant Run(lines, false, importPath) == Run(lines[i..], inImportBlock, importPath)
    {
      RunAt(lines, i, inImportBlock, importPath);
      var step := ScanLine(lines[i], inImportBlock, importPath);
      match step {
        case Hit => return Some(true);
        case Panic => return None;
        case Next(b) => inImportBlock := b;
      }
      i := i + 1;
    }
    return Some(false);
  }

  /** The body of containsImport's loop for one line; `Next` is going on
    * to the following line (a `continue` or the end of the body). */
  method ScanLine(raw: string, inImportBlock: bool, importPath: string) returns (step: Step)
    ensures step == LineStep(raw, inImportBlock, importPath)
  {
    var line := TrimSpace(raw);
    if HasPrefix(line, ImportKeyword) && Contains(line, importPath) {
      return Hit;
    }
    if line == BlockOpen {
      return Next(true);
    }
    if inImportBlock {
      if line == BlockClose {
        return Next(false);
      }
      var importLine := TrimSpace(line);
      step := ScanBlockLine(importLine, importPath);
      return;
    }
    return Next(false);
  }

  /** The part of the loop body for a line inside an import block. */
  method ScanBlockLine(importLine: string, importPath: string) returns (step: Step)
    ensures step == BlockLine(importLine, importPath)
  {
    if HasPrefix(importLine, [Quote]) && HasSuffix(importLine, [Quote]) {
      if |importLine| < 2 {
        return Panic;
      }
      var extractedPath := importLine[1..|importLine| - 1];
      if extractedPath == importPath {
        return Hit;
      }
    } else if Quote in importLine {
      var parts := Split(importLine, Quote);
      if |parts| >= 3 && parts[1] == importPath {
        return Hit;
      }
    }
    return Next(true);
  }

  /** Wherever the scan as written answers, the corrected scan gives the same answer. */
  lemma {:induction false} CorrectedAgrees(lines: seq<string>, inBlock: bool, importPath: string)
    requires Run(lines, inBlock, importPath).Some?
    ensures Run(lines, inBlock, importPath) == Some(RunCorrected(lines, inBlock, importPath))
  {
    if lines != [] {
      var s := LineStep(lines[0], inBlock, importPath);
      if s.Next? {
        CorrectedAgrees(lines[1..], s.inBlock, importPath);
      }
    }
  }

  /** A text with no line starting with `import` imports nothing. */
  lemma {:induction false} NoImportLineNoImport(lines: seq<string>, importPath: string)
    requires forall i :: 0 <= i < |lines| ==> !HasPrefix(TrimSpace(lines[i]), "import")
    ensures Run(lines, false, importPath) == Some(false)
    ensures !RunCorrected(lines, false, importPath)
  {
    if lines != [] {
      var line := TrimSpace(lines[0]);
      PrefixTrans(line, ImportKeyword, "import");
      PrefixTrans(line, BlockOpen, "import");
      assert LineStep(lines[0], false, importPath) == Next(false);
      NoImportLineNoImport(lines[1..], importPath);
    }
  }

  /** An import block listing the path in quotes, on a line of its own, is
    * found (for a path that is not part of the text `import (` itself). */
  lemma QuotedImportFound(importPath: string, rest: seq<string>)
    requires !Contains(BlockOpen, importPath)
    ensures Run([BlockOpen, [Quote] + importPath + [Quote]] + rest, false, importPath) == Some(true)
    ensures RunCorrected([BlockOpen, [Quote] + importPath + [Quote]] + rest, false, importPath)
  {
    var quoted := [Quote] + importPath + [Quote];
    TrimSpaceKeeps(BlockOpen);
    TrimSpaceKeeps(quoted);
    assert LineStep(BlockOpen, false, importPath) == Next(true);
    assert HasPrefix(quoted, [Quote]) && HasSuffix(quoted, [Quote]);
    assert quoted[1..|quoted| - 1] == importPath;
    assert !HasPrefix(quoted, ImportKeyword) && quoted != BlockOpen && quoted != BlockClose by {
      assert quoted[0] == Quote;
    }
    assert LineStep(quoted, true, importPath) == Hit;
    var lines := [BlockOpen, quoted] + rest;
    assert lines[1..] == [quoted] + rest;
  }

  /** `import (`, a line holding one quote, and `)`. */
  const LoneQuoteText := BlockOpen + "\n" + [Quote] + "\n" + BlockClose

  lemma LoneQuoteLines()
    ensures Split(LoneQuoteText, '\n') == [BlockOpen, [Quote], BlockClose]
  {
    var lone := [Quote];
    SplitNone(BlockClose, '\n');
    SplitCons(lone, BlockClose, '\n');
    SplitCons(BlockOpen, lone + "\n" + BlockClose, '\n');
    assert LoneQuoteText == BlockOpen + "\n" + (lone + "\n" + BlockClose);
  }

  lemma LoneQuoteSteps(importPath: string)
    requires !Contains(BlockOpen, importPath)
    ensures LineStep(BlockOpen, false, importPath) == Next(true)
    ensures LineStep([Quote], true, importPath) == Panic
    ensures LineStepCorrected([Quote], true, importPath) == Next(true)
    ensures LineStepCorrected(BlockClose, true, importPath) == Next(false)
  {
    TrimSpaceKeeps(BlockOpen);
    TrimSpaceKeeps([Quote]);
    TrimSpaceKeeps(BlockClose);
  }

  /** That text makes the scan as written panic for a path such as "fmt";
    * the corrected scan answers no. */
  lemma LoneQuotePanics(importPath: string)
    requires !Contains(BlockOpen, importPath)
    ensures Run(Split(LoneQuoteText, '\n'), false, importPath).None?
    ensures !RunCorrected(Split(LoneQuoteText, '\n'), false, importPath)
  {
    LoneQuoteLines();
    LoneQuoteSteps(importPath);
    assert LineStepCorrected(BlockOpen, false, importPath) == Next(true);
    LoneQuoteRun(BlockOpen, [Quote], BlockClose, importPath);
    LoneQuoteRunCorrected(BlockOpen, [Quote], BlockClose, importPath);
  }

  lemma LoneQuoteRun(open: string, lone: string, close: string, importPath: string)
    requires LineStep(open, false, importPath) == Next(true)
    requires LineStep(lone, true, importPath) == Panic
    ensures Run([open, lone, close], false, importPath).None?
  {
    var lines := [open, lone, close];
    assert lines[1..] == [lone, close];
  }

  lemma LoneQuoteRunCorrected(open: string, lone: string, close: string, importPath: string)
    requires LineStepCorrected(open, false, importPath) == Next(true)
    requires LineStepCorrected(lone, true, importPath) == Next(true)
    requires LineStepCorrected(close, true, importPath) == Next(false)
    ensures !RunCorrected([open, lone, close], false, importPath)
  {
    var lines := [open, lone, close];
    assert lines[1..] == [lone, close];
    assert [lone, close][1..] == [close];
    assert [close][1..] == [];
    assert !RunCorrected([close], true, importPath);
    assert !RunCorrected([lone, close], true, importPath);
  }
}
