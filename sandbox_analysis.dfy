/**
 * Local sandbox analysis on Linux: the evidence extracted from an `strace` log of
 * `npm install`, the static detectors run over the installed sources, and the request
 * sent for scoring. The child process, the temporary directory and the files it
 * touches are inputs: the log is given as text and `node_modules` as a tree.
 */
module SandboxAnalysis {
  import opened Base
  import opened Text
  import opened ApiClient
  import opened ScanCommand

  // ---------------------------------------------------------------------------
  // First quoted string

  /** `extract_quoted_string`: the text between the first and the second `"`. */
  function ExtractQuotedString(line: string): (r: Option<string>)
    ensures r.Some? ==> '"' !in r.value && |r.value| + 2 <= |line|
  {
    match IndexOf(line, '"')
    case None => None
    case Some(start) =>
      match IndexOf(line[start + 1..], '"')
      case None => None
      case Some(end) => Some(line[start + 1..start + 1 + end])
  }

  /** `line[i]` and `line[j]` are the first two double quotes of `line`. */
  ghost predicate FirstQuotes(line: string, i: int, j: int) {
    0 <= i < j < |line| && line[i] == '"' && line[j] == '"' &&
    '"' !in line[..i] && '"' !in line[i + 1..j]
  }

  /** Given the first two quotes, the extraction yields what lies between them. */
  lemma QuotedBetween(line: string, i: int, j: int)
    requires FirstQuotes(line, i, j)
    ensures ExtractQuotedString(line) == Some(line[i + 1..j])
  {
    IndexOfAt(line, '"', i);
    var rest := line[i + 1..];
    assert rest[..j - i - 1] == line[i + 1..j];
    IndexOfAt(rest, '"', j - i - 1);
  }

  /** A successful extraction found the first two quotes. */
  lemma QuotedHasQuotes(line: string)
    requires ExtractQuotedString(line).Some?
    ensures exists i, j :: FirstQuotes(line, i, j)
  {
    var start := IndexOf(line, '"').value;
    var end := IndexOf(line[start + 1..], '"').value;
    assert line[start + 1..][..end] == line[start + 1..start + 1 + end];
    assert FirstQuotes(line, start, start + 1 + end);
  }

  /** The extraction succeeds exactly when the line has two quotes, and gives what lies between. */
  lemma QuotedStringSpec(line: string)
    ensures ExtractQuotedString(line).Some? <==> exists i, j :: FirstQuotes(line, i, j)
    ensures forall i, j :: FirstQuotes(line, i, j) ==> ExtractQuotedString(line) == Some(line[i + 1..j])
  {
    forall i, j | FirstQuotes(line, i, j)
      ensures ExtractQuotedString(line) == Some(line[i + 1..j])
    {
      QuotedBetween(line, i, j);
    }
    if ExtractQuotedString(line).Some? {
      QuotedHasQuotes(line);
    }
  }

  // ---------------------------------------------------------------------------
  // First dotted quad

  /** The regex class `\d` of the pattern engine used: ASCII digits only. */
  predicate IsDigit(c: char) {
    '0' <= c <= '9'
  }

  /** `s[x..y]` is a non-empty run of digits. */
  ghost predicate DigitsBetween(s: string, x: int, y: int) {
    0 <= x < y <= |s| && forall k :: x <= k < y ==> IsDigit(s[k])
  }

  /** The dots at `a`, `b`, `c` split `s[i..j]` into four digit runs. */
  ghost predicate QuadSplit(s: string, i: int, a: int, b: int, c: int, j: int) {
    DigitsBetween(s, i, a) && DigitsBetween(s, a + 1, b) && DigitsBetween(s, b + 1, c) &&
    DigitsBetween(s, c + 1, j) && s[a] == '.' && s[b] == '.' && s[c] == '.'
  }

  /** `s[i..j]` matches `\d+\.\d+\.\d+\.\d+` as a whole. */
  ghost predicate QuadAt(s: string, i: int, j: int) {
    exists a, b, c :: QuadSplit(s, i, a, b, c, j)
  }

  /** The end of the run of digits starting at `i`. */
  function DigitsEnd(s: string, i: nat): (j: nat)
    requires i <= |s|
    ensures i <= j <= |s|
    ensures forall k :: i <= k < j ==> IsDigit(s[k])
    ensures j == |s| || !IsDigit(s[j])
    decreases |s| - i
  {
    if i < |s| && IsDigit(s[i]) then DigitsEnd(s, i + 1) else i
  }

  /** The end of `n` digit runs joined by `.`, starting at `i`, each run taken whole. */
  function GroupsEnd(s: string, i: nat, n: nat): (r: Option<nat>)
    requires i <= |s| && n >= 1
    ensures r.Some? ==> i < r.value <= |s|
    decreases n
  {
    var j := DigitsEnd(s, i);
    if j == i then None
    else if n == 1 then Some(j)
    else if j < |s| && s[j] == '.' then GroupsEnd(s, j + 1, n - 1)
    else None
  }

  /** The first start position at or after `i` where a dotted quad begins, with its end. */
  function FindQuad(s: string, i: nat): (r: Option<(nat, nat)>)
    requires i <= |s|
    ensures r.Some? ==> i <= r.value.0 < r.value.1 <= |s| && GroupsEnd(s, r.value.0, 4) == Some(r.value.1)
    decreases |s| - i
  {
    match GroupsEnd(s, i, 4)
    case Some(j) => Some((i, j))
    case None => if i == |s| then None else FindQuad(s, i + 1)
  }

  /** The scan from `i` passes over no start of a quad: none at all when it finds nothing. */
  lemma FindQuadFirst(s: string, i: nat)
    requires i <= |s|
    ensures FindQuad(s, i).None? ==> forall k :: i <= k <= |s| ==> GroupsEnd(s, k, 4).None?
    ensures FindQuad(s, i).Some? ==> forall k :: i <= k < FindQuad(s, i).value.0 ==> GroupsEnd(s, k, 4).None?
  {
    forall k | i <= k <= |s| && (FindQuad(s, i).None? || k < FindQuad(s, i).value.0)
      ensures GroupsEnd(s, k, 4).None?
    {
      FindQuadSkips(s, i, k);
    }
  }

  /** A position the scan from `i` passes over starts no quad. */
  lemma {:induction false} FindQuadSkips(s: string, i: nat, k: nat)
    requires i <= k <= |s|
    requires FindQuad(s, i).None? || k < FindQuad(s, i).value.0
    ensures GroupsEnd(s, k, 4).None?
    decreases k - i
  {
    if GroupsEnd(s, i, 4).Some? {
      assert false;
    } else if i < k {
      var next := FindQuad(s, i + 1);
      assert FindQuad(s, i) == next;
      assert next.None? || k < next.value.0;
      FindQuadSkips(s, i + 1, k);
    }
  }

  /** `extract_ip_address`: the leftmost match of `\d+\.\d+\.\d+\.\d+`. */
  function ExtractIpAddress(line: string): (r: Option<string>)
  {
    match FindQuad(line, 0)
    case Some((i, j)) => Some(line[i..j])
    case None => None
  }

  /** The run from `i` to `k` of digits stopped by a non-digit ends exactly at `k`. */
  lemma {:induction false} DigitsEndAt(s: string, i: nat, k: nat)
    requires i <= k <= |s|
    requires forall m :: i <= m < k ==> IsDigit(s[m])
    ensures DigitsEnd(s, i) >= k
    ensures k < |s| && !IsDigit(s[k]) ==> DigitsEnd(s, i) == k
    decreases k - i
  {
    if i < k {
      DigitsEndAt(s, i + 1, k);
    }
  }

  /** What the scanner finds from `i` is a dotted quad. */
  lemma QuadSound(s: string, i: nat)
    requires i <= |s| && GroupsEnd(s, i, 4).Some?
    ensures QuadAt(s, i, GroupsEnd(s, i, 4).value)
  {
    var a := DigitsEnd(s, i);
    GroupSplits(s, i, 4);
    var b, c, j := ThreeGroups(s, a + 1);
    assert QuadSplit(s, i, a, b, c, j);
  }

  /** What the scanner accepts as three groups from `x`: runs ending at `b`, `c` and `j`. */
  lemma ThreeGroups(s: string, x: nat) returns (b: nat, c: nat, j: nat)
    requires x <= |s| && GroupsEnd(s, x, 3).Some?
    ensures DigitsBetween(s, x, b) && b < |s| && s[b] == '.'
    ensures DigitsBetween(s, b + 1, c) && c < |s| && s[c] == '.'
    ensures DigitsBetween(s, c + 1, j) && GroupsEnd(s, x, 3) == Some(j)
  {
    b := DigitsEnd(s, x);
    GroupSplits(s, x, 3);
    c, j := TwoGroups(s, b + 1);
  }

  /** What the scanner accepts as two groups from `x`: runs ending at `c` and `j`. */
  lemma TwoGroups(s: string, x: nat) returns (c: nat, j: nat)
    requires x <= |s| && GroupsEnd(s, x, 2).Some?
    ensures DigitsBetween(s, x, c) && c < |s| && s[c] == '.'
    ensures DigitsBetween(s, c + 1, j) && GroupsEnd(s, x, 2) == Some(j)
  {
    c := DigitsEnd(s, x);
    GroupSplits(s, x, 2);
    j := DigitsEnd(s, c + 1);
  }

  /** A scan of `n` groups that succeeds starts with a whole digit run and a dot. */
  lemma GroupSplits(s: string, x: nat, n: nat)
    requires x <= |s| && n >= 2 && GroupsEnd(s, x, n).Some?
    ensures var y := DigitsEnd(s, x);
      DigitsBetween(s, x, y) && y < |s| && s[y] == '.' && GroupsEnd(s, x, n) == GroupsEnd(s, y + 1, n - 1)
  {
  }

  /** Every dotted quad starting at `i` is found, and the scanner's match is the longest. */
  lemma QuadComplete(s: string, i: nat, j: nat)
    requires i <= j <= |s| && QuadAt(s, i, j)
    ensures GroupsEnd(s, i, 4).Some? && j <= GroupsEnd(s, i, 4).value
  {
    var a, b, c :| QuadSplit(s, i, a, b, c, j);
    QuadSplitFound(s, i, a, b, c, j);
  }

  /** The scanner follows the four runs of a split quad and takes the last one whole. */
  lemma QuadSplitFound(s: string, i: nat, a: nat, b: nat, c: nat, j: nat)
    requires QuadSplit(s, i, a, b, c, j)
    ensures GroupsEnd(s, i, 4).Some? && j <= GroupsEnd(s, i, 4).value
  {
    GroupsFound(s, b + 1, c, j, 2);
    GroupsFound(s, a + 1, b, j, 3);
    GroupsFound(s, i, a, j, 4);
  }

  /**
   * A digit run from `x` to a dot at `y`, after which the scanner reaches `j` or beyond
   * with one group fewer: from `x` it reaches `j` or beyond.
   */
  lemma GroupsFound(s: string, x: nat, y: nat, j: nat, n: nat)
    requires DigitsBetween(s, x, y) && y < |s| && s[y] == '.' && n >= 2
    requires n == 2 ==> DigitsBetween(s, y + 1, j)
    requires n > 2 ==> GroupsEnd(s, y + 1, n - 1).Some? && j <= GroupsEnd(s, y + 1, n - 1).value
    ensures GroupsEnd(s, x, n).Some? && j <= GroupsEnd(s, x, n).value
  {
    GroupStep(s, x, y, n);
    if n == 2 {
      GroupLast(s, y + 1, j);
    }
  }

  /** A last digit run is taken whole, so it reaches at least its end. */
  lemma GroupLast(s: string, x: nat, y: nat)
    requires DigitsBetween(s, x, y)
    ensures GroupsEnd(s, x, 1).Some? && y <= GroupsEnd(s, x, 1).value
  {
    DigitsEndAt(s, x, y);
  }

  /** A whole digit run followed by a dot hands the remaining groups on past the dot. */
  lemma GroupStep(s: string, x: nat, y: nat, n: nat)
    requires DigitsBetween(s, x, y) && y < |s| && s[y] == '.' && n >= 2
    ensures GroupsEnd(s, x, n) == GroupsEnd(s, y + 1, n - 1)
  {
    DigitsEndAt(s, x, y);
  }

  /**
   * The extracted address is the leftmost dotted quad of the line, taken as long as it
   * goes; the extraction fails exactly when the line holds none.
   */
  lemma IpAddressSpec(line: string)
    ensures ExtractIpAddress(line).None? <==> forall i, j :: 0 <= i <= j <= |line| ==> !QuadAt(line, i, j)
    ensures ExtractIpAddress(line).Some? ==> exists i, j :: (0 <= i < j <= |line| &&
      ExtractIpAddress(line) == Some(line[i..j]) && QuadAt(line, i, j) &&
      (forall k, m :: 0 <= k <= m <= |line| && QuadAt(line, k, m) ==> i <= k) &&
      (forall m :: j < m <= |line| ==> !QuadAt(line, i, m)))
  {
    FindQuadFirst(line, 0);
    match FindQuad(line, 0) {
      case None =>
        forall i, j | 0 <= i <= j <= |line| ensures !QuadAt(line, i, j) {
          if QuadAt(line, i, j) { QuadComplete(line, i, j); }
        }
      case Some((i, j)) =>
        QuadSound(line, i);
        forall k, m | 0 <= k <= m <= |line| && QuadAt(line, k, m) ensures i <= k {
          QuadComplete(line, k, m);
        }
        forall m | j < m <= |line| ensures !QuadAt(line, i, m) {
          if QuadAt(line, i, m) { QuadComplete(line, i, m); }
        }
    }
  }

  // ---------------------------------------------------------------------------
  // The strace fold

  /** Opened paths that count as sensitive. */
  predicate IsSensitivePath(path: string) {
    Contains(path, ".ssh") || Contains(path, ".aws") || Contains(path, ".npmrc")
  }

  /** The path a trace line opens: it mentions `open` and quotes something. */
  function OpenedPath(line: string): Option<string> {
    if Contains(line, "open") then ExtractQuotedString(line) else None
  }

  /** The address a trace line connects to: it mentions `connect` and holds a dotted quad. */
  function ConnectedIp(line: string): Option<string> {
    if Contains(line, "connect") then ExtractIpAddress(line) else None
  }

  /** The opened paths of the log, in line order. */
  function OpenedFiles(lines: seq<string>): seq<string> {
    if lines == [] then []
    else OpenedFiles(lines[..|lines| - 1]) + OptionList(OpenedPath(lines[|lines| - 1]))
  }

  /** The sensitive-file records of the log, in line order. */
  function SensitiveFiles(lines: seq<string>): seq<SensitiveAccess> {
    if lines == [] then []
    else
      var rest := SensitiveFiles(lines[..|lines| - 1]);
      match OpenedPath(lines[|lines| - 1])
      case Some(path) => if IsSensitivePath(path) then rest + [SensitiveAccess("file", path)] else rest
      case None => rest
  }

  /** The connection records of the log, in line order. */
  function Connections(lines: seq<string>): seq<NetworkConnection> {
    if lines == [] then []
    else
      var rest := Connections(lines[..|lines| - 1]);
      match ConnectedIp(lines[|lines| - 1])
      case Some(ip) => rest + [NetworkConnection(None, Some(ip), 0)]
      case None => rest
  }

  /** What one trace line adds: the file it opens (and its sensitive read), the address it connects to. */
  function TraceStep(b: SandboxBehavior, line: string): SandboxBehavior {
    var file := OpenedPath(line);
    b.(filesRead := b.filesRead + OptionList(file),
       sensitiveAccess := b.sensitiveAccess
         + (if file.Some? && IsSensitivePath(file.value) then [SensitiveAccess("file", file.value)] else []),
       networkConnections := b.networkConnections
         + (if ConnectedIp(line).Some? then [NetworkConnection(None, ConnectedIp(line), 0)] else []))
  }

  /** The behaviour after folding the log `lines` into `b`, line by line. */
  function WithTrace(b: SandboxBehavior, lines: seq<string>): SandboxBehavior {
    if lines == [] then b else TraceStep(WithTrace(b, lines[..|lines| - 1]), lines[|lines| - 1])
  }

  /**
   * The fold appends the opened files, the sensitive reads and the connections of the
   * whole log, each in line order, and changes nothing else.
   */
  lemma WithTraceFields(b: SandboxBehavior, lines: seq<string>)
    ensures WithTrace(b, lines) == b.(filesRead := b.filesRead + OpenedFiles(lines),
                                      sensitiveAccess := b.sensitiveAccess + SensitiveFiles(lines),
                                      networkConnections := b.networkConnections + Connections(lines))
  {
    TraceFiles(b, lines);
    TraceSensitive(b, lines);
    TraceConnections(b, lines);
    TraceKeeps(b, lines);
  }

  lemma {:induction false} TraceFiles(b: SandboxBehavior, lines: seq<string>)
    ensures WithTrace(b, lines).filesRead == b.filesRead + OpenedFiles(lines)
  {
    if lines != [] {
      var init, line := lines[..|lines| - 1], lines[|lines| - 1];
      assert lines == init + [line];
      TraceFiles(b, init);
      OpenedFilesSnoc(init, line);
    }
  }

  lemma {:induction false} TraceSensitive(b: SandboxBehavior, lines: seq<string>)
    ensures WithTrace(b, lines).sensitiveAccess == b.sensitiveAccess + SensitiveFiles(lines)
  {
    if lines != [] {
      var init, line := lines[..|lines| - 1], lines[|lines| - 1];
      assert lines == init + [line];
      TraceSensitive(b, init);
      SensitiveFilesSnoc(init, line);
    }
  }

  lemma {:induction false} TraceConnections(b: SandboxBehavior, lines: seq<string>)
    ensures WithTrace(b, lines).networkConnections == b.networkConnections + Connections(lines)
  {
    if lines != [] {
      var init, line := lines[..|lines| - 1], lines[|lines| - 1];
      assert lines == init + [line];
      TraceConnections(b, init);
      ConnectionsSnoc(init, line);
    }
  }

  lemma {:induction false} TraceKeeps(b: SandboxBehavior, lines: seq<string>)
    ensures var w := WithTrace(b, lines);
      w.filesWritten == b.filesWritten && w.processesSpawned == b.processesSpawned &&
      w.envVarsAccessed == b.envVarsAccessed && w.exitCode == b.exitCode
  {
    if lines != [] {
      TraceKeeps(b, lines[..|lines| - 1]);
    }
  }

  /** The line loop of `collect_behavior_linux`. */
  method ParseTrace(lines: seq<string>, b0: SandboxBehavior) returns (b: SandboxBehavior)
    ensures b == WithTrace(b0, lines)
  {
    b := b0;
    for i := 0 to |lines|
      invariant b == WithTrace(b0, lines[..i])
    {
      assert lines[..i + 1][..i] == lines[..i];
      b := TraceLine(b, lines[i]);
    }
    assert lines[..|lines|] == lines;
  }

  /** One line of the strace log: an `open` line may add a file, a `connect` line a connection. */
  method TraceLine(b0: SandboxBehavior, line: string) returns (b: SandboxBehavior)
    ensures b == TraceStep(b0, line)
  {
    b := b0;
    if Contains(line, "open") {
      match ExtractQuotedString(line) {
        case Some(path) =>
          b := b.(filesRead := b.filesRead + [path]);
          if Contains(path, ".ssh") || Contains(path, ".aws") || Contains(path, ".npmrc") {
            b := b.(sensitiveAccess := b.sensitiveAccess + [SensitiveAccess("file", path)]);
          }
        case None =>
      }
    }
    if Contains(line, "connect") {
      match ExtractIpAddress(line) {
        case Some(ip) =>
          b := b.(networkConnections := b.networkConnections + [NetworkConnection(None, Some(ip), 0)]);
        case None =>
      }
    }
  }

  lemma SensitiveFilesSnoc(lines: seq<string>, line: string)
    ensures SensitiveFiles(lines + [line]) == SensitiveFiles(lines)
      + (if OpenedPath(line).Some? && IsSensitivePath(OpenedPath(line).value)
         then [SensitiveAccess("file", OpenedPath(line).value)] else [])
  {
    assert (lines + [line])[..|lines|] == lines;
  }

  lemma ConnectionsSnoc(lines: seq<string>, line: string)
    ensures Connections(lines + [line]) == Connections(lines)
      + (if ConnectedIp(line).Some? then [NetworkConnection(None, ConnectedIp(line), 0)] else [])
  {
    assert (lines + [line])[..|lines|] == lines;
  }

  lemma OpenedFilesSnoc(lines: seq<string>, line: string)
    ensures OpenedFiles(lines + [line]) == OpenedFiles(lines) + OptionList(OpenedPath(line))
  {
    assert (lines + [line])[..|lines|] == lines;
  }

  /** The log splits anywhere: what two parts yield is what the whole yields, in order. */
  lemma {:induction false} OpenedFilesConcat(xs: seq<string>, ys: seq<string>)
    ensures OpenedFiles(xs + ys) == OpenedFiles(xs) + OpenedFiles(ys)
    decreases |ys|
  {
    if ys == [] {
      assert xs + ys == xs;
    } else {
      var init, line := ys[..|ys| - 1], ys[|ys| - 1];
      var found := OptionList(OpenedPath(line));
      assert ys == init + [line];
      assert xs + ys == (xs + init) + [line];
      calc {
        OpenedFiles(xs + ys);
        == { OpenedFilesSnoc(xs + init, line); }
        OpenedFiles(xs + init) + found;
        == { OpenedFilesConcat(xs, init); }
        OpenedFiles(xs) + OpenedFiles(init) + found;
        == { OpenedFilesSnoc(init, line); }
        OpenedFiles(xs) + OpenedFiles(ys);
      }
    }
  }

  /** Every recorded path was quoted by a line of the log mentioning `open`. */
  lemma {:induction false} OpenedFilesFromLines(lines: seq<string>)
    ensures forall f :: f in OpenedFiles(lines) ==>
      exists k :: 0 <= k < |lines| && Contains(lines[k], "open") && ExtractQuotedString(lines[k]) == Some(f)
  {
    if lines != [] {
      var init := lines[..|lines| - 1];
      OpenedFilesFromLines(init);
      forall f | f in OpenedFiles(lines)
        ensures exists k :: 0 <= k < |lines| && Contains(lines[k], "open") && ExtractQuotedString(lines[k]) == Some(f)
      {
        if f in OpenedFiles(init) {
          var k :| 0 <= k < |init| && Contains(init[k], "open") && ExtractQuotedString(init[k]) == Some(f);
          assert lines[k] == init[k];
        } else {
          assert OpenedPath(lines[|lines| - 1]) == Some(f);
        }
      }
    }
  }

  /** The sensitive paths among `paths`, as file records, in order. */
  function SensitiveOf(paths: seq<string>): (r: seq<SensitiveAccess>)
    ensures |r| <= |paths|
    ensures forall a :: a in r ==> a.accessType == "file" && a.path in paths && IsSensitivePath(a.path)
  {
    if paths == [] then []
    else
      var rest := SensitiveOf(paths[..|paths| - 1]);
      var p := paths[|paths| - 1];
      if IsSensitivePath(p) then rest + [SensitiveAccess("file", p)] else rest
  }

  /** The sensitive records are exactly the sensitive ones among the opened paths, in order. */
  lemma {:induction false} SensitiveFilesAreOpened(lines: seq<string>)
    ensures SensitiveFiles(lines) == SensitiveOf(OpenedFiles(lines))
  {
    if lines != [] {
      var init := lines[..|lines| - 1];
      SensitiveFilesAreOpened(init);
      var ps := OpenedFiles(init);
      match OpenedPath(lines[|lines| - 1]) {
        case Some(path) =>
          assert OpenedFiles(lines) == ps + [path];
          assert (ps + [path])[..|ps|] == ps;
        case None =>
          assert OpenedFiles(lines) == ps;
      }
    }
  }

  /** Each connection record comes from a dotted quad on a line mentioning `connect`. */
  lemma {:induction false} ConnectionsFromLines(lines: seq<string>)
    ensures forall c :: c in Connections(lines) ==>
      c.host.None? && c.port == 0 && c.ip.Some? &&
      exists k :: 0 <= k < |lines| && Contains(lines[k], "connect") && ExtractIpAddress(lines[k]) == c.ip
  {
    if lines != [] {
      var init := lines[..|lines| - 1];
      ConnectionsFromLines(init);
      forall c | c in Connections(lines)
        ensures c.host.None? && c.port == 0 && c.ip.Some? &&
          exists k :: 0 <= k < |lines| && Contains(lines[k], "connect") && ExtractIpAddress(lines[k]) == c.ip
      {
        if c in Connections(init) {
          var k :| 0 <= k < |init| && Contains(init[k], "connect") && ExtractIpAddress(init[k]) == c.ip;
          assert lines[k] == init[k];
        } else {
          assert ConnectedIp(lines[|lines| - 1]) == c.ip;
        }
      }
    }
  }

  /** One line can record both a file and a connection: the two checks are independent. */
  lemma OpenAndConnectIndependent(line: string)
    ensures OpenedFiles([line]) == OptionList(OpenedPath(line))
    ensures Connections([line]) == (if ConnectedIp(line).Some? then [NetworkConnection(None, ConnectedIp(line), 0)] else [])
  {
    assert [line][..0] == [];
  }

  // ---------------------------------------------------------------------------
  // The directory walk

  /**
   * An entry under `node_modules`: a file with its content (`None` when it does not
   * read as text), or a directory with its entries in listing order (`readable` is
   * false when listing it fails).
   */
  datatype Node = File(name: string, content: Option<string>) | Dir(name: string, children: seq<Node>, readable: bool)

  /** The position of the last `.` of `name`. */
  function LastDot(name: string): (r: Option<nat>)
    ensures r.None? <==> '.' !in name
    ensures r.Some? ==> r.value < |name| && name[r.value] == '.' && '.' !in name[r.value + 1..]
  {
    if name == [] then None
    else if name[|name| - 1] == '.' then Some(|name| - 1)
    else
      var r := LastDot(name[..|name| - 1]);
      if r.Some? then
        assert name[r.value + 1..] == name[..|name| - 1][r.value + 1..] + [name[|name| - 1]];
        r
      else
        assert name == name[..|name| - 1] + [name[|name| - 1]];
        r
  }

  /** `Path::extension` of a file name: what follows the last `.`, unless that `.` leads the name. */
  function Extension(name: string): (r: Option<string>)
    ensures r.Some? <==> exists i :: 0 < i < |name| && name[i] == '.'
    ensures r.Some? ==> '.' !in r.value && |r.value| < |name| && name[|name| - |r.value| - 1] == '.'
  {
    match LastDot(name)
    case None => None
    case Some(i) =>
      if i == 0 then
        assert forall k :: 0 < k < |name| ==> name[k] == name[1..][k - 1];
        None
      else Some(name[i + 1..])
  }

  /** The walker keeps JavaScript and TypeScript sources only. */
  predicate IsSourceFile(name: string) {
    var e := Extension(name);
    e == Some("js") || e == Some("ts") || e == Some("mjs") || e == Some("cjs")
  }

  lemma ExtensionExamples()
    ensures Extension("index.js") == Some("js") && Extension("a.min.mjs") == Some("mjs")
    ensures Extension(".js") == None && Extension("README") == None
  {
    LastDotAt("index.js", 5);
    LastDotAt("a.min.mjs", 5);
  }

  /** A dot with no dot after it is the last dot. */
  lemma LastDotAt(name: string, i: nat)
    requires i < |name| && name[i] == '.' && '.' !in name[i + 1..]
    ensures LastDot(name) == Some(i)
  {
    var r := LastDot(name);
    if r.None? {
      assert false;
    } else if r.value < i {
      assert false;
    } else if r.value > i {
      assert false;
    }
  }

  /** `walkdir`: the source files under `node`, depth first; `None` if a listing fails. */
  function Walk(node: Node): Option<seq<Node>>
    decreases node, 1, 0
  {
    if node.File? then Some([])
    else if !node.readable then None
    else WalkChildren(node, |node.children|)
  }

  /** The walk over the first `k` entries of the directory `dir`. */
  function WalkChildren(dir: Node, k: nat): Option<seq<Node>>
    requires dir.Dir? && k <= |dir.children|
    decreases dir, 0, k
  {
    if k == 0 then Some([])
    else match WalkChildren(dir, k - 1)
      case None => None
      case Some(found) =>
        var child := dir.children[k - 1];
        if child.Dir? then
          match Walk(child)
          case None => None
          case Some(more) => Some(found + more)
        else if IsSourceFile(child.name) then Some(found + [child])
        else Some(found)
  }

  lemma {:induction false} WalkChildrenFails(dir: Node, i: nat, k: nat)
    requires dir.Dir? && i <= k <= |dir.children| && WalkChildren(dir, i).None?
    ensures WalkChildren(dir, k).None?
    decreases k
  {
    if i < k {
      WalkChildrenFails(dir, i, k - 1);
    }
  }

  /** The recursive walk, growing its result entry by entry. */
  method WalkDir(node: Node) returns (r: Option<seq<Node>>)
    ensures r == Walk(node)
    decreases node
  {
    if node.File? {
      return Some([]);
    }
    if !node.readable {
      return None;
    }
    var result := [];
    var i := 0;
    while i < |node.children|
      invariant 0 <= i <= |node.children|
      invariant WalkChildren(node, i) == Some(result)
    {
      var child := node.children[i];
      if child.Dir? {
        var sub := WalkDir(child);
        if sub.None? {
          WalkChildrenFails(node, i + 1, |node.children|);
          return None;
        }
        result := result + sub.value;
      } else if IsSourceFile(child.name) {
        result := result + [child];
      }
      i := i + 1;
    }
    return Some(result);
  }

  /** Some directory at or below `node` cannot be listed. */
  predicate HasUnreadable(node: Node)
    decreases node
  {
    node.Dir? && (!node.readable || exists i :: 0 <= i < |node.children| && HasUnreadable(node.children[i]))
  }

  /** The walk fails exactly when some directory in the tree cannot be listed. */
  lemma {:induction false} WalkFailsIff(node: Node)
    ensures Walk(node).None? <==> HasUnreadable(node)
    decreases node, 1, 0
  {
    if node.Dir? && node.readable {
      WalkChildrenFailsIff(node, |node.children|);
    }
  }

  lemma {:induction false} WalkChildrenFailsIff(dir: Node, k: nat)
    requires dir.Dir? && k <= |dir.children|
    ensures WalkChildren(dir, k).None? <==> exists i :: 0 <= i < k && HasUnreadable(dir.children[i])
    decreases dir, 0, k
  {
    if k > 0 {
      WalkChildrenFailsIff(dir, k - 1);
      var child := dir.children[k - 1];
      if child.Dir? {
        WalkFailsIff(child);
      }
    }
  }

  /** All files at or below `node`, depth first, whatever their names. */
  function AllFiles(node: Node): seq<Node>
    decreases node, 1, 0
  {
    if node.File? then [node] else AllFilesOf(node, |node.children|)
  }

  function AllFilesOf(dir: Node, k: nat): seq<Node>
    requires dir.Dir? && k <= |dir.children|
    decreases dir, 0, k
  {
    if k == 0 then [] else AllFilesOf(dir, k - 1) + AllFiles(dir.children[k - 1])
  }

  /** The source files among `files`, in order. */
  function SourceOnly(files: seq<Node>): (r: seq<Node>)
    ensures forall f :: f in r ==> f in files && f.File? && IsSourceFile(f.name)
  {
    if files == [] then []
    else
      var rest := SourceOnly(files[..|files| - 1]);
      var f := files[|files| - 1];
      if f.File? && IsSourceFile(f.name) then rest + [f] else rest
  }

  lemma {:induction false} SourceOnlyConcat(xs: seq<Node>, ys: seq<Node>)
    ensures SourceOnly(xs + ys) == SourceOnly(xs) + SourceOnly(ys)
    decreases |ys|
  {
    if ys == [] {
      assert xs + ys == xs;
    } else {
      var init, f := ys[..|ys| - 1], ys[|ys| - 1];
      assert ys == init + [f];
      assert xs + ys == (xs + init) + [f];
      calc {
        SourceOnly(xs + ys);
        == { SourceOnlySnoc(xs + init, f); }
        SourceOnly(xs + init) + SourceOnly([f]);
        == { SourceOnlyConcat(xs, init); }
        SourceOnly(xs) + SourceOnly(init) + SourceOnly([f]);
        == { SourceOnlySnoc(init, f); }
        SourceOnly(xs) + SourceOnly(ys);
      }
    }
  }

  lemma SourceOnlySnoc(files: seq<Node>, f: Node)
    ensures SourceOnly(files + [f]) == SourceOnly(files) + SourceOnly([f])
  {
    assert (files + [f])[..|files|] == files;
    assert [f][..0] == [];
  }

  /**
   * A walk that succeeds over a directory returns exactly the source files of the
   * tree, every one of them, in depth-first order.
   */
  lemma {:induction false} WalkFindsSources(node: Node)
    requires node.Dir? && Walk(node).Some?
    ensures Walk(node).value == SourceOnly(AllFiles(node))
    decreases node, 1, 0
  {
    WalkChildrenSources(node, |node.children|);
  }

  lemma {:induction false} WalkChildrenSources(dir: Node, k: nat)
    requires dir.Dir? && k <= |dir.children| && WalkChildren(dir, k).Some?
    ensures WalkChildren(dir, k).value == SourceOnly(AllFilesOf(dir, k))
    decreases dir, 0, k
  {
    if k > 0 {
      WalkChildrenSources(dir, k - 1);
      var child := dir.children[k - 1];
      SourceOnlyConcat(AllFilesOf(dir, k - 1), AllFiles(child));
      if child.Dir? {
        WalkFindsSources(child);
      } else {
        assert AllFiles(child) == [child];
        assert [child][..0] == [];
      }
    }
  }

  // ---------------------------------------------------------------------------
  // Static detectors over installed sources

  // The detector patterns are tested with literal containment, backslashes and bars included.
  const EnvPattern: string := "process\\.env\\."
  const SensitivePattern: string := "\\.ssh|\\.aws|\\.npmrc"
  const NetworkPattern: string := "http\\.request|fetch\\(|axios"
  const SpawnPattern: string := "child_process|exec\\(|spawn\\("
  const EvalPattern: string := "eval\\(|new Function\\("

  const EnvDescription: string := "process.env access"

  /** The five detectors, as (pattern, description) pairs in the order they are tried. */
  const Detectors: seq<(string, string)> := [
    (EnvPattern, EnvDescription),
    (SensitivePattern, "Sensitive paths"),
    (NetworkPattern, "Network access"),
    (SpawnPattern, "Process spawning"),
    (EvalPattern, "Dynamic code execution")]

  /** What a detector that fired adds, chosen by its description. */
  function Record(b: SandboxBehavior, description: string): SandboxBehavior {
    match description
    case "process.env access" =>
      if description in b.envVarsAccessed then b
      else b.(envVarsAccessed := b.envVarsAccessed + [description])
    case "Sensitive paths" =>
      b.(sensitiveAccess := b.sensitiveAccess + [SensitiveAccess("pattern", description)])
    case "Dynamic code execution" =>
      b.(sensitiveAccess := b.sensitiveAccess + [SensitiveAccess("pattern", description)])
    case "Network access" =>
      b.(networkConnections := b.networkConnections + [NetworkConnection(Some("dynamic"), None, 0)])
    case "Process spawning" =>
      b.(processesSpawned := b.processesSpawned + [ProcessSpawned("child_process", [])])
    case _ => b
  }

  /** The first `k` detectors run over one file's content. */
  function DetectorsUpTo(b: SandboxBehavior, content: string, k: nat): SandboxBehavior
    requires k <= |Detectors|
  {
    if k == 0 then b
    else
      var b' := DetectorsUpTo(b, content, k - 1);
      if Contains(content, Detectors[k - 1].0) then Record(b', Detectors[k - 1].1) else b'
  }

  /** The content of a walked entry, when it reads as text. */
  function ContentOf(entry: Node): Option<string> {
    if entry.File? then entry.content else None
  }

  /** All detectors run over the readable files among `entries`, in order. */
  function ScanFiles(b: SandboxBehavior, entries: seq<Node>): SandboxBehavior {
    if entries == [] then b
    else
      var b' := ScanFiles(b, entries[..|entries| - 1]);
      match ContentOf(entries[|entries| - 1])
      case Some(content) => DetectorsUpTo(b', content, |Detectors|)
      case None => b'
  }

  function Bit(p: bool): nat {
    if p then 1 else 0
  }

  /** One file adds at most one record per detector; the env description only if new. */
  lemma FileEffect(b: SandboxBehavior, content: string)
    ensures var r := DetectorsUpTo(b, content, |Detectors|);
      && r.envVarsAccessed == (if Contains(content, EnvPattern) && EnvDescription !in b.envVarsAccessed
                               then b.envVarsAccessed + [EnvDescription] else b.envVarsAccessed)
      && r.sensitiveAccess == b.sensitiveAccess
           + (if Contains(content, SensitivePattern) then [SensitiveAccess("pattern", "Sensitive paths")] else [])
           + (if Contains(content, EvalPattern) then [SensitiveAccess("pattern", "Dynamic code execution")] else [])
      && r.networkConnections == b.networkConnections
           + (if Contains(content, NetworkPattern) then [NetworkConnection(Some("dynamic"), None, 0)] else [])
      && r.processesSpawned == b.processesSpawned
           + (if Contains(content, SpawnPattern) then [ProcessSpawned("child_process", [])] else [])
      && r.filesRead == b.filesRead && r.filesWritten == b.filesWritten && r.exitCode == b.exitCode
  {
    var b1 := DetectorsUpTo(b, content, 1);
    var b2 := DetectorsUpTo(b, content, 2);
    var b3 := DetectorsUpTo(b, content, 3);
    var b4 := DetectorsUpTo(b, content, 4);
    assert DetectorsUpTo(b, content, 0) == b;
    assert b1 == if Contains(content, EnvPattern) then Record(b, EnvDescription) else b;
    assert b2 == if Contains(content, SensitivePattern) then Record(b1, "Sensitive paths") else b1;
    assert b3 == if Contains(content, NetworkPattern) then Record(b2, "Network access") else b2;
    assert b4 == if Contains(content, SpawnPattern) then Record(b3, "Process spawning") else b3;
  }

  /** How many of the readable files contain `pattern`. */
  function MatchCount(entries: seq<Node>, pattern: string): nat {
    if entries == [] then 0
    else
      var last := ContentOf(entries[|entries| - 1]);
      MatchCount(entries[..|entries| - 1], pattern) + Bit(last.Some? && Contains(last.value, pattern))
  }

  /**
   * Over a whole walk: the env description is added at most once overall, while the
   * network and process detectors add one record per matching file and the two
   * pattern detectors feeding `sensitiveAccess` one each.
   */
  lemma {:induction false} ScanFilesCounts(b: SandboxBehavior, entries: seq<Node>)
    ensures var r := ScanFiles(b, entries);
      && (EnvDescription in b.envVarsAccessed ==> r.envVarsAccessed == b.envVarsAccessed)
      && (EnvDescription !in b.envVarsAccessed ==>
            r.envVarsAccessed == b.envVarsAccessed + (if MatchCount(entries, EnvPattern) > 0 then [EnvDescription] else []))
      && |r.networkConnections| == |b.networkConnections| + MatchCount(entries, NetworkPattern)
      && |r.processesSpawned| == |b.processesSpawned| + MatchCount(entries, SpawnPattern)
      && |r.sensitiveAccess| == |b.sensitiveAccess| + MatchCount(entries, SensitivePattern) + MatchCount(entries, EvalPattern)
      && r.filesRead == b.filesRead && r.filesWritten == b.filesWritten && r.exitCode == b.exitCode
  {
    if entries != [] {
      var init := entries[..|entries| - 1];
      ScanFilesCounts(b, init);
      match ContentOf(entries[|entries| - 1]) {
        case Some(content) =>
          FileEffect(ScanFiles(b, init), content);
        case None =>
      }
    }
  }

  /** The environment pattern is literal: only content holding a backslash can match it. */
  lemma EnvPatternNeedsBackslash(content: string)
    ensures Contains(content, EnvPattern) ==> '\\' in content
  {
    if Contains(content, EnvPattern) {
      assert EnvPattern[7] == '\\';
      ContainsChar(content, EnvPattern, '\\');
    }
  }

  /** The patterns are literal: ordinary code that reads the environment does not match. */
  lemma LiteralPatterns()
    ensures !Contains("process.env.HOME", EnvPattern)
  {
    EnvPatternNeedsBackslash("process.env.HOME");
    assert '\\' !in "process.env.HOME";
  }

  /** The pattern matches the text that spells out its backslashes. */
  lemma LiteralPatternMatches()
    ensures Contains("process\\.env\\.HOME", EnvPattern)
  {
    assert "process\\.env\\.HOME"[..|EnvPattern|] == EnvPattern;
    ContainsAt("process\\.env\\.HOME", EnvPattern, 0);
  }

  /** The behaviour after static analysis of `node_modules`, when it exists and its walk succeeds. */
  function WithModules(b: SandboxBehavior, nodeModules: Option<Node>): SandboxBehavior {
    match nodeModules
    case None => b
    case Some(root) =>
      match Walk(root)
      case None => b
      case Some(entries) => ScanFiles(b, entries)
  }

  /** `analyze_node_modules`: every detector over every readable source file. */
  method AnalyzeNodeModules(nodeModules: Option<Node>, b0: SandboxBehavior) returns (b: SandboxBehavior)
    ensures b == WithModules(b0, nodeModules)
  {
    b := b0;
    if nodeModules.None? {
      return;
    }
    var entries := WalkDir(nodeModules.value);
    if entries.None? {
      return;
    }
    var files := entries.value;
    for i := 0 to |files|
      invariant b == ScanFiles(b0, files[..i])
    {
      assert files[..i + 1][..i] == files[..i];
      match ContentOf(files[i]) {
        case Some(content) =>
          ghost var before := b;
          for k := 0 to |Detectors|
            invariant b == DetectorsUpTo(before, content, k)
          {
            var (pattern, description) := Detectors[k];
            if Contains(content, pattern) {
              match description {
                case "process.env access" =>
                  if description !in b.envVarsAccessed {
                    b := b.(envVarsAccessed := b.envVarsAccessed + [description]);
                  }
                case "Sensitive paths" =>
                  b := b.(sensitiveAccess := b.sensitiveAccess + [SensitiveAccess("pattern", description)]);
                case "Dynamic code execution" =>
                  b := b.(sensitiveAccess := b.sensitiveAccess + [SensitiveAccess("pattern", description)]);
                case "Network access" =>
                  b := b.(networkConnections := b.networkConnections + [NetworkConnection(Some("dynamic"), None, 0)]);
                case "Process spawning" =>
                  b := b.(processesSpawned := b.processesSpawned + [ProcessSpawned("child_process", [])]);
                case _ =>
              }
            }
          }
        case None =>
      }
    }
    assert files[..|files|] == files;
  }

  // ---------------------------------------------------------------------------
  // Collection and scoring

  /** The argument given to `npm install` in the sandbox. */
  function PkgSpec(package: string, version: string): string {
    if version == "latest" then package else package + "@" + version
  }

  /**
   * For a name without `@`, the spec's part before the first `@` is the name, and
   * whatever follows that `@` is the version; `latest` leaves no version at all.
   */
  lemma PkgSpecName(package: string, version: string)
    requires '@' !in package
    ensures PackageName(PkgSpec(package, version)) == package
    ensures version == "latest" <==> PkgSpec(package, version) == package
    ensures version != "latest" ==> PkgSpec(package, version)[|package| + 1..] == version
  {
    if version != "latest" {
      IndexOfConcat(package, '@', version);
      assert |PkgSpec(package, version)| > |package|;
    }
  }

  /** How the sandboxed install ended. */
  datatype ChildExit = SpawnFailed | Exited(code: int) | Signalled

  /** The recorded exit code: the child's own, or 1 when it did not run or has none. */
  function ExitCodeOf(child: ChildExit): int {
    match child
    case Exited(code) => code
    case _ => 1
  }

  /**
   * What the host provides to one collection: whether the temporary directory and its
   * `package.json` could be created, how the traced install ended, the trace log (if
   * it can be opened), the installed `node_modules` tree (if it exists) and whether
   * the final cleanup could remove the directory (its error is ignored).
   */
  datatype SandboxHost = SandboxHost(
    dirCreated: bool, manifestWritten: bool, child: ChildExit,
    traceLog: Option<string>, nodeModules: Option<Node>, dirRemoved: bool)

  /** The behaviour a completed collection reports. */
  function Evidence(host: SandboxHost): SandboxBehavior {
    var lines := match host.traceLog case Some(log) => Lines(log) case None => [];
    WithModules(WithTrace(EmptyBehavior(ExitCodeOf(host.child)), lines), host.nodeModules)
  }

  /**
   * The collection's result, the install argument used (if the install ran), and
   * whether the temporary directory is left behind.
   */
  datatype Collection = Collection(behavior: Option<SandboxBehavior>, installSpec: Option<string>, dirLeftBehind: bool)

  /** `collect_behavior` on Linux. */
  method CollectBehavior(package: string, version: string, host: SandboxHost) returns (c: Collection)
    ensures c.behavior.None? <==> !host.dirCreated || !host.manifestWritten
    ensures c.behavior.Some? ==> c.behavior.value == Evidence(host) && c.installSpec == Some(PkgSpec(package, version))
    ensures c.behavior.None? ==> c.installSpec.None?
    ensures c.dirLeftBehind <==> host.dirCreated && (!host.manifestWritten || !host.dirRemoved)
  {
    if !host.dirCreated {
      return Collection(None, None, false);
    }
    if !host.manifestWritten {
      // the early return skips the cleanup below
      return Collection(None, None, true);
    }
    var spec := PkgSpec(package, version);
    var b := EmptyBehavior(ExitCodeOf(host.child));
    match host.traceLog {
      case Some(log) =>
        b := ParseTrace(Lines(log), b);
      case None =>
        b := WithTrace(b, []);
    }
    b := AnalyzeNodeModules(host.nodeModules, b);
    // the cleanup's failure is discarded, leaving the directory in place
    c := Collection(Some(b), Some(spec), !host.dirRemoved);
  }

  /** The outcome of a local sandbox run, as reported to the user. */
  datatype SandboxOutcome =
    | NotAvailable
    | CouldNotCollect
    | Scored(request: SandboxAnalyzeRequest, score: int, verdict: SandboxVerdict, details: seq<string>)
    | ServerUnavailable(request: SandboxAnalyzeRequest)

  /** The details shown for a scored run: those of the first five flags only. */
  function ShownDetails(flags: Option<seq<SandboxFlag>>): (r: seq<string>)
    ensures |r| <= 5
    ensures r <= FlagDetails(flags.GetOr([]))
    ensures |flags.GetOr([])| <= 5 ==> r == FlagDetails(flags.GetOr([]))
    ensures |flags.GetOr([])| > 5 ==> r + FlagDetails(flags.GetOr([])[5..]) == FlagDetails(flags.GetOr([]))
  {
    var fs := flags.GetOr([]);
    if |fs| <= 5 then FlagDetails(fs)
    else
      assert fs == fs[..5] + fs[5..];
      FlagDetailsConcat(fs[..5], fs[5..]);
      FlagDetails(fs[..5])
  }

  /**
   * `run_local_sandbox`: collect, send to the service (whose answer depends on the
   * request), and report with a score defaulting to 0 and a level to `"safe"`.
   */
  method RunLocalSandbox(available: bool, package: string, version: string, host: SandboxHost,
                         deviceId: string, analyze: SandboxAnalyzeRequest -> Result<SandboxAnalyzeResponse, string>)
    returns (outcome: SandboxOutcome)
    ensures !available <==> outcome == NotAvailable
    ensures available && (!host.dirCreated || !host.manifestWritten) <==> outcome == CouldNotCollect
    ensures outcome.Scored? || outcome.ServerUnavailable? ==>
      outcome.request == SandboxAnalyzeRequest(package, version, Evidence(host), "local", deviceId)
    ensures outcome.Scored? ==> analyze(outcome.request).Ok?
    ensures outcome.Scored? && analyze(outcome.request).Ok? ==>
      var response := analyze(outcome.request).value;
      outcome.score == response.score.GetOr(0) &&
      outcome.verdict == SandboxVerdictOf(response.riskLevel) && outcome.details == ShownDetails(response.flags)
    ensures outcome.ServerUnavailable? ==> analyze(outcome.request).Err?
  {
    if !available {
      return NotAvailable;
    }
    var collection := CollectBehavior(package, version, host);
    if collection.behavior.None? {
      return CouldNotCollect;
    }
    var request := SandboxAnalyzeRequest(package, version, collection.behavior.value, "local", deviceId);
    match analyze(request) {
      case Ok(response) =>
        outcome := Scored(request, response.score.GetOr(0), SandboxVerdictOf(response.riskLevel),
                          ShownDetails(response.flags));
      case Err(_) =>
        outcome := ServerUnavailable(request);
    }
  }
}
