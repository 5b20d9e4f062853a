/**
  Command lines as text. The flasher helpers (brewblox_ctl/commands/install.py) and
  the legacy command classes (brewblox_ctl/commands.py) build their shell lines with
  `str.format` from fixed words, the `optsudo` prefix and a docker tag.
*/
module ShellText {
  import opened SudoCheck

  /** Text with no command separator and no line break. */
  predicate Plain(s: string) {
    forall i :: 0 <= i < |s| ==> !IsSeparator(s[i]) && s[i] != '\n'
  }

  lemma PlainAppend(a: string, b: string)
    ensures Plain(a + b) <==> Plain(a) && Plain(b)
  {
    if Plain(a + b) {
      forall i | 0 <= i < |a| ensures !IsSeparator(a[i]) && a[i] != '\n' { assert a[i] == (a + b)[i]; }
      forall i | 0 <= i < |b| ensures !IsSeparator(b[i]) && b[i] != '\n' { assert b[i] == (a + b)[|a| + i]; }
    }
  }

  /** Words joined by single spaces, as the format strings lay them out. */
  function Words(ws: seq<string>): (s: string)
    ensures |ws| > 0 ==> |s| >= |ws[0]| && s[..|ws[0]|] == ws[0]
    ensures (forall i :: 0 <= i < |ws| ==> Plain(ws[i])) ==> Plain(s)
    decreases |ws|
  {
    if |ws| == 0 then ""
    else if |ws| == 1 then ws[0]
    else
      var rest := Words(ws[1..]);
      assert forall i :: 1 <= i < |ws| ==> ws[i] == ws[1..][i - 1];
      PlainAppend(ws[0], " ");
      PlainAppend(ws[0] + " ", rest);
      assert (ws[0] + " " + rest)[..|ws[0]|] == ws[0];
      ws[0] + " " + rest
  }

  /** Joining two non-empty word lists puts one space between them. */
  lemma {:induction false} WordsAppend(a: seq<string>, b: seq<string>)
    requires |a| > 0 && |b| > 0
    ensures Words(a + b) == Words(a) + " " + Words(b)
    decreases |a|
  {
    if |a| == 1 {
      assert (a + b)[1..] == b;
    } else {
      assert (a + b)[1..] == a[1..] + b;
      WordsAppend(a[1..], b);
    }
  }

  /**
    `optsudo` (brewblox_ctl/commands.py:18): the prefix that makes a docker command
    run as root, empty when the user may call docker directly.
  */
  function OptSudo(isDockerUser: bool): (s: string)
    ensures s == "" <==> isDockerUser
    ensures !isDockerUser ==> s == "sudo "
  {
    if isDockerUser then "" else "sudo "
  }

  /** The image both command sets flash with; the docker tag follows the colon. */
  const FlasherImage: string := "brewblox/firmware-flasher:"

  /** Stopping the services with docker-compose, behind the prefix. */
  function ComposeDownLine(sudo: string): string {
    sudo + Words(["docker-compose", "down"])
  }

  /** Pulling the flasher image with the given tag, behind the prefix. */
  function FlasherPullLine(sudo: string, tag: string): string {
    sudo + Words(["docker", "pull", FlasherImage + tag])
  }
}
