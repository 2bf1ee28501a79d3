/** `fix_youtube_cookies` (fix_cookies.py) over an in-memory file system:
    checks a Netscape cookie file for the YouTube domains and the critical
    login cookies, and writes it back with a Netscape header when it lacks one. */
module Cookies {
  import opened Wrappers
  import opened Strings

  const NetscapeMarker := "# Netscape HTTP Cookie File"

  /** The four header lines prepended to a file that lacks one. */
  const NetscapeHeader := NetscapeMarker + "\n# http://curl.haxx.se/rfc/cookie_spec.html\n# This is a generated file! Do not edit.\n\n"

  const YoutubeDomains: set<string> := {".youtube.com", "youtube.com", ".google.com", "google.com"}

  const CriticalCookies: set<string> := {"SID", "HSID", "SSID", "APISID", "SAPISID", "__Secure-1PSID", "__Secure-3PSID"}

  /** A line that holds a cookie: not blank and not a comment. */
  predicate IsCookieLine(line: string) {
    NotBlank(line) && !StartsWith(line, "#")
  }

  /** The tab-separated fields of a line. */
  function Fields(line: string): (r: seq<string>)
    ensures |r| >= 1
  {
    Split(line, "\t")
  }

  /** `content.strip().split('\n')`. */
  function Lines(content: string): (r: seq<string>)
    ensures |r| >= 1
  {
    Split(Strip(content, Whitespace), "\n")
  }

  /** The content as written: with the Netscape header in front unless it
      already starts with the marker line or mentions "HTTP Cookie File". */
  function WithHeader(content: string): (r: string)
    ensures EndsWith(r, content)
    ensures r != content <==> !StartsWith(content, NetscapeMarker) && !Contains(content, "HTTP Cookie File")
    ensures r != content ==> r == NetscapeHeader + content
  {
    if !StartsWith(content, NetscapeMarker) && !Contains(content, "HTTP Cookie File") then
      assert |NetscapeHeader + content| > |content|;
      NetscapeHeader + content
    else content
  }

  /** The domain (first field) of every cookie line with at least two fields. */
  function Domains(lines: seq<string>): set<string> {
    set l | l in lines && IsCookieLine(l) && |Fields(l)| >= 2 :: Fields(l)[0]
  }

  /** The critical cookie names (sixth field) of the cookie lines with at least seven fields. */
  function CriticalFound(lines: seq<string>): set<string> {
    set l | l in lines && IsCookieLine(l) && |Fields(l)| >= 7 && Fields(l)[5] in CriticalCookies :: Fields(l)[5]
  }

  lemma {:induction false} DomainsSnoc(lines: seq<string>, line: string)
    ensures Domains(lines + [line])
            == Domains(lines) + (if IsCookieLine(line) && |Fields(line)| >= 2 then {Fields(line)[0]} else {})
  {
    var big := lines + [line];
    forall l | l in big ensures l in lines || l == line {}
    forall l | l in lines ensures l in big {}
  }

  lemma {:induction false} CriticalFoundSnoc(lines: seq<string>, line: string)
    ensures CriticalFound(lines + [line])
            == CriticalFound(lines)
               + (if IsCookieLine(line) && |Fields(line)| >= 7 && Fields(line)[5] in CriticalCookies
                  then {Fields(line)[5]} else {})
  {
    var big := lines + [line];
    forall l | l in big ensures l in lines || l == line {}
    forall l | l in lines ensures l in big {}
  }

  /** The first loop: the domain set of the lines. */
  method CollectDomains(lines: seq<string>) returns (domains: set<string>)
    ensures domains == Domains(lines)
  {
    domains := {};
    for i := 0 to |lines|
      invariant domains == Domains(lines[..i])
    {
      var line := lines[i];
      assert lines[..i + 1] == lines[..i] + [line];
      DomainsSnoc(lines[..i], line);
      if NotBlank(line) && !StartsWith(line, "#") {
        var parts := Split(line, "\t");
        if |parts| >= 2 {
          domains := domains + {parts[0]};
        }
      }
    }
    assert lines[..|lines|] == lines;
  }

  /** The second loop: the critical cookies found in the lines. */
  method CollectCriticalCookies(lines: seq<string>) returns (found: set<string>)
    ensures found == CriticalFound(lines)
    ensures found <= CriticalCookies
  {
    found := {};
    for i := 0 to |lines|
      invariant found == CriticalFound(lines[..i])
    {
      var line := lines[i];
      assert lines[..i + 1] == lines[..i] + [line];
      CriticalFoundSnoc(lines[..i], line);
      if NotBlank(line) && !StartsWith(line, "#") {
        var parts := Split(line, "\t");
        if |parts| >= 7 {
          var cookieName := parts[5];
          if cookieName in CriticalCookies {
            found := found + {cookieName};
          }
        }
      }
    }
    assert lines[..|lines|] == lines;
  }

  /** What the function reports about the file it read. */
  datatype Report = Report(domains: set<string>, missingDomains: set<string>,
                           foundCookies: set<string>, missingCookies: set<string>)

  /** `output_file` defaults to `input_file` when it is None or empty. */
  function OutputFile(inputFile: string, outputFile: Option<string>): string {
    if outputFile.None? || outputFile.value == "" then inputFile else outputFile.value
  }

  /** `fix_youtube_cookies`: False without writing when the input file is
      absent; otherwise the analysis of its lines and the content written. */
  method FixYoutubeCookies(inputFile: string, outputFile: Option<string>, files: map<string, string>)
    returns (ok: bool, written: map<string, string>, report: Option<Report>)
    ensures ok <==> inputFile in files
    ensures !ok ==> written == files && report.None?
    ensures ok ==> written == files[OutputFile(inputFile, outputFile) := WithHeader(files[inputFile])]
    ensures ok ==> report.Some?
    ensures ok ==> var lines := Lines(files[inputFile]);
      && report.value.domains == Domains(lines)
      && report.value.missingDomains == YoutubeDomains - report.value.domains
      && report.value.foundCookies == CriticalFound(lines)
      && report.value.foundCookies <= CriticalCookies
      && report.value.missingCookies == CriticalCookies - report.value.foundCookies
  {
    var output := if outputFile.None? || outputFile.value == "" then inputFile else outputFile.value;
    if inputFile !in files {
      return false, files, None;
    }
    var content := files[inputFile];
    var lines := Split(Strip(content, Whitespace), "\n");
    if !StartsWith(content, NetscapeMarker) {
      if !Contains(content, "HTTP Cookie File") {
        content := NetscapeHeader + content;
      }
    }
    var domains := CollectDomains(lines);
    var missingDomains := YoutubeDomains - domains;
    var foundCookies := CollectCriticalCookies(lines);
    var missingCookies := CriticalCookies - foundCookies;
    written := files[output := content];
    return true, written, Some(Report(domains, missingDomains, foundCookies, missingCookies));
  }

  /** The original content is always the tail of what is written, and the
      header goes in front exactly when the file names no cookie-file format. */
  lemma {:induction false} HeaderOnlyWhenMissing(content: string)
    ensures StartsWith(content, NetscapeMarker) ==> WithHeader(content) == content
    ensures WithHeader(WithHeader(content)) == WithHeader(content)
  {
    if WithHeader(content) != content {
      var r := NetscapeHeader + content;
      assert StartsWith(r, NetscapeMarker) by {
        assert r == NetscapeMarker + (NetscapeHeader[|NetscapeMarker|..] + content);
      }
    }
  }
}
