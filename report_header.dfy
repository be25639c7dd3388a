/**
 * The column header a run prints before probing (oci_runner.py, lines 95-98):
 * fixed-width, left-justified labels, with the AVAILABLE_COUNT column only
 * in DRCC mode.
 */
module ReportHeader {
  import opened Text

  const REGION_LABEL: string := "REGION"
  const AD_LABEL: string := "AVAILABILITY_DOMAIN"
  const FD_LABEL: string := "FAULT_DOMAIN"
  const SHAPE_LABEL: string := "SHAPE"
  const OCPU_LABEL: string := "OCPU"
  const MEMORY_LABEL: string := "MEMORY"
  const COUNT_LABEL: string := "AVAILABLE_COUNT"
  const AVAILABILITY_LABEL: string := "AVAILABILITY"

  /** The labels and widths of line 95, which every header starts with. */
  function BaseHeader(): (h: string)
    ensures |h| == 121 && h[0] == '\n'
  {
    "\n" + LeftJustify(REGION_LABEL, 20) + " " + LeftJustify(AD_LABEL, 30)
    + " " + LeftJustify(FD_LABEL, 20) + " " + LeftJustify(SHAPE_LABEL, 25)
    + " " + LeftJustify(OCPU_LABEL, 10) + " " + LeftJustify(MEMORY_LABEL, 10)
  }

  /** The header text: the base, the count column when `drcc`, then AVAILABILITY and a line break. */
  function Header(drcc: bool): (h: string)
    ensures BaseHeader() <= h
    ensures |h| >= 14 && h[|h| - 14..] == " " + AVAILABILITY_LABEL + "\n"
  {
    var counted := if drcc then BaseHeader() + " " + LeftJustify(COUNT_LABEL, 16) else BaseHeader();
    counted + " " + AVAILABILITY_LABEL + "\n"
  }

  /** The column labels a reader sees, in order. */
  function HeaderLabels(drcc: bool): seq<string>
  {
    [REGION_LABEL, AD_LABEL, FD_LABEL, SHAPE_LABEL, OCPU_LABEL, MEMORY_LABEL]
    + (if drcc then [COUNT_LABEL] else [])
    + [AVAILABILITY_LABEL]
  }

  lemma LabelsAreWords()
    ensures IsWord(REGION_LABEL) && IsWord(AD_LABEL) && IsWord(FD_LABEL) && IsWord(SHAPE_LABEL)
    ensures IsWord(OCPU_LABEL) && IsWord(MEMORY_LABEL) && IsWord(COUNT_LABEL) && IsWord(AVAILABILITY_LABEL)
  {
  }

  /** Appending a blank and a padded label adds that label as the next token. */
  lemma TokensAddColumn(prefix: string, heading: string, width: nat)
    requires IsWord(heading)
    ensures Tokens(prefix + " " + LeftJustify(heading, width)) == Tokens(prefix) + [heading]
  {
    TokensBlankJoin(prefix, LeftJustify(heading, width));
    TokensLeftJustify(heading, width);
  }

  lemma BaseHeaderTokens()
    ensures Tokens(BaseHeader()) == [REGION_LABEL, AD_LABEL, FD_LABEL, SHAPE_LABEL, OCPU_LABEL, MEMORY_LABEL]
  {
    LabelsAreWords();
    var p1 := "\n" + LeftJustify(REGION_LABEL, 20);
    assert Tokens(p1) == [REGION_LABEL] by {
      TokensConcat("\n", LeftJustify(REGION_LABEL, 20));
      TokensLeftJustify(REGION_LABEL, 20);
      assert Tokens("\n") == [];
    }
    var p2 := p1 + " " + LeftJustify(AD_LABEL, 30);
    assert Tokens(p2) == [REGION_LABEL, AD_LABEL] by {
      TokensAddColumn(p1, AD_LABEL, 30);
    }
    var p3 := p2 + " " + LeftJustify(FD_LABEL, 20);
    assert Tokens(p3) == [REGION_LABEL, AD_LABEL, FD_LABEL] by {
      TokensAddColumn(p2, FD_LABEL, 20);
    }
    var p4 := p3 + " " + LeftJustify(SHAPE_LABEL, 25);
    assert Tokens(p4) == [REGION_LABEL, AD_LABEL, FD_LABEL, SHAPE_LABEL] by {
      TokensAddColumn(p3, SHAPE_LABEL, 25);
    }
    var p5 := p4 + " " + LeftJustify(OCPU_LABEL, 10);
    assert Tokens(p5) == [REGION_LABEL, AD_LABEL, FD_LABEL, SHAPE_LABEL, OCPU_LABEL] by {
      TokensAddColumn(p4, OCPU_LABEL, 10);
    }
    var p6 := p5 + " " + LeftJustify(MEMORY_LABEL, 10);
    assert Tokens(p6) == [REGION_LABEL, AD_LABEL, FD_LABEL, SHAPE_LABEL, OCPU_LABEL, MEMORY_LABEL] by {
      TokensAddColumn(p5, MEMORY_LABEL, 10);
    }
  }

  /**
   * Read back on whitespace, the header is exactly its labels in order:
   * REGION, AVAILABILITY_DOMAIN, FAULT_DOMAIN, SHAPE, OCPU, MEMORY, then
   * AVAILABLE_COUNT when `drcc`, then AVAILABILITY.
   */
  lemma HeaderTokens(drcc: bool)
    ensures Tokens(Header(drcc)) == HeaderLabels(drcc)
  {
    LabelsAreWords();
    BaseHeaderTokens();
    var counted := if drcc then BaseHeader() + " " + LeftJustify(COUNT_LABEL, 16) else BaseHeader();
    assert Tokens(counted) == HeaderLabels(drcc)[..|HeaderLabels(drcc)| - 1] by {
      if drcc {
        TokensAddColumn(BaseHeader(), COUNT_LABEL, 16);
      }
    }
    var line := counted + " " + AVAILABILITY_LABEL;
    assert Tokens(line) == HeaderLabels(drcc) by {
      TokensBlankJoin(counted, AVAILABILITY_LABEL);
      TokensWord(AVAILABILITY_LABEL);
    }
    assert Tokens(line + "\n") == Tokens(line) by {
      TokensConcat(line, "\n");
      assert Tokens("\n") == [];
    }
  }

  /** The AVAILABLE_COUNT column is in the header if and only if DRCC mode is on, and it sits between MEMORY and AVAILABILITY. */
  lemma AvailableCountIffDrcc(drcc: bool)
    ensures COUNT_LABEL in Tokens(Header(drcc)) <==> drcc
    ensures |Tokens(Header(drcc))| == if drcc then 8 else 7
    ensures drcc ==> Tokens(Header(drcc))[5..8] == [MEMORY_LABEL, COUNT_LABEL, AVAILABILITY_LABEL]
    ensures !drcc ==> Tokens(Header(drcc))[5..7] == [MEMORY_LABEL, AVAILABILITY_LABEL]
  {
    HeaderTokens(drcc);
  }

  /**
   * Every padded label fills exactly its column width (all labels are
   * shorter than their widths), so the header is 135 characters long, or 152
   * with the 1 + 16 characters of the count column.
   */
  lemma HeaderLength(drcc: bool)
    ensures |BaseHeader()| == 1 + 20 + 1 + 30 + 1 + 20 + 1 + 25 + 1 + 10 + 1 + 10
    ensures |Header(drcc)| == if drcc then 152 else 135
  {
  }

  /** Turning DRCC on only inserts the count column before " AVAILABILITY"; the columns before it do not move. */
  lemma DrccInsertsColumn()
    ensures Header(true) == Header(false)[..|BaseHeader()|] + " " + LeftJustify(COUNT_LABEL, 16) + Header(false)[|BaseHeader()|..]
  {
    var b := BaseHeader();
    var tail := " " + AVAILABILITY_LABEL + "\n";
    assert Header(false) == b + tail;
    assert Header(false)[..|b|] == b;
    assert Header(false)[|b|..] == tail;
  }
}
