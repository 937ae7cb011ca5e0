/** Model names (app/registry/labels.py). */
module Labels {

  predicate IsAlnum(c: char) { 'a' <= c <= 'z' || '0' <= c <= '9' }

  predicate IsBody(c: char) { IsAlnum(c) || c == '-' }

  predicate EndsWith(s: string, suffix: string) { |suffix| <= |s| && s[|s| - |suffix|..] == suffix }

  /** `[a-z0-9]([-a-z0-9]{0,38}[a-z0-9])?` */
  predicate MatchesNameRe(name: string) {
    && 1 <= |name| <= 40
    && IsAlnum(name[0]) && IsAlnum(name[|name| - 1])
    && forall i :: 0 <= i < |name| ==> IsBody(name[i])
  }

  /** One letter or digit, or two of them around at most 38 letters, digits and dashes. */
  lemma NameShape(name: string)
    ensures MatchesNameRe(name) <==>
      || (|name| == 1 && ('a' <= name[0] <= 'z' || '0' <= name[0] <= '9'))
      || (exists c: char, body: string, d: char {:trigger [c] + body + [d]} ::
            name == [c] + body + [d] && IsFramed(c, body, d))
  {
    if MatchesNameRe(name) && |name| >= 2 {
      var c, body, d := name[0], name[1..|name| - 1], name[|name| - 1];
      assert name == [c] + body + [d];
      assert IsFramed(c, body, d);
    }
    if c: char, body: string, d: char {:trigger [c] + body + [d]} :| name == [c] + body + [d] && IsFramed(c, body, d) {
      assert forall i :: 0 < i < |name| - 1 ==> name[i] == body[i - 1];
    }
  }

  predicate IsFramed(c: char, body: string, d: char) {
    && ('a' <= c <= 'z' || '0' <= c <= '9') && ('a' <= d <= 'z' || '0' <= d <= '9') && |body| <= 38
    && forall i :: 0 <= i < |body| ==> 'a' <= body[i] <= 'z' || '0' <= body[i] <= '9' || body[i] == '-'
  }

  /** `check_model_name` accepts the name. */
  predicate IsModelName(name: string) {
    MatchesNameRe(name) && !EndsWith(name, "-api") && !EndsWith(name, "-worker") && !EndsWith(name, "-cache")
  }
}
