/** File-name sanitisation (src/path.rs). */
module Path {

  /** The nine characters that `sanitize_file_name` replaces by `_`. */
  predicate Forbidden(c: char) {
    c == '/' || c == '\\' || c == ':' || c == '*' || c == '?' ||
    c == '\"' || c == '<' || c == '>' || c == '|'
  }

  /** `str::replace` with a one-character pattern and a one-character replacement. */
  function Replace(s: string, from: char, to: char): (r: string)
    ensures |r| == |s|
    ensures forall i :: 0 <= i < |s| ==> r[i] == if s[i] == from then to else s[i]
  {
    seq(|s|, i requires 0 <= i < |s| => if s[i] == from then to else s[i])
  }

  /** `sanitize_file_name`: the same chain of nine replacements as the source. */
  function SanitizeFileName(name: string): (r: string)
    ensures |r| == |name|
    ensures forall i :: 0 <= i < |name| ==> r[i] == if Forbidden(name[i]) then '_' else name[i]
  {
    Replace(Replace(Replace(Replace(Replace(Replace(Replace(Replace(Replace(
      name, '/', '_'), '\\', '_'), ':', '_'), '*', '_'), '?', '_'), '\"', '_'), '<', '_'), '>', '_'), '|', '_')
  }

  /** True when no character of `s` is forbidden in a file name. */
  predicate Clean(s: string) {
    forall i :: 0 <= i < |s| ==> !Forbidden(s[i])
  }

  /** The output never contains a forbidden character. */
  lemma SanitizedIsClean(name: string)
    ensures Clean(SanitizeFileName(name))
  {
  }

  /** A name without forbidden characters is returned unchanged. */
  lemma SanitizeKeepsCleanName(name: string)
    requires Clean(name)
    ensures SanitizeFileName(name) == name
  {
    var r := SanitizeFileName(name);
    assert forall i :: 0 <= i < |name| ==> r[i] == name[i];
  }

  /** Sanitising twice is the same as sanitising once. */
  lemma SanitizeIdempotent(name: string)
    ensures SanitizeFileName(SanitizeFileName(name)) == SanitizeFileName(name)
  {
    SanitizedIsClean(name);
    SanitizeKeepsCleanName(SanitizeFileName(name));
  }

  /** The sanitised form of every element, in order (`sanitized_folder_path`). */
  function SanitizeAll(names: seq<string>): (r: seq<string>)
    ensures |r| == |names|
    ensures forall i :: 0 <= i < |names| ==> r[i] == SanitizeFileName(names[i])
  {
    if names == [] then [] else [SanitizeFileName(names[0])] + SanitizeAll(names[1..])
  }
}
