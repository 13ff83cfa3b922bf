/** Reading the command lines the scripts build: the value given to an option
    (`-b 0.0.0.0:5000`), the port at the end of a bind address, and the words
    of a shell line. */
module Argv {
  import opened Host

  /** The word after the first occurrence of `flag` that has a word after it.
      Parsers differ on a repeated flag (the last one wins, or every one
      counts); for a flag given at most once they all read this word. */
  function OptionValue(args: seq<string>, flag: string): Option<string>
    decreases |args|
  {
    if |args| < 2 then None
    else if args[0] == flag then Some(args[1])
    else OptionValue(args[1..], flag)
  }

  /** `flag` occurs at most once in `args`. */
  predicate AtMostOnce(args: seq<string>, flag: string)
  {
    forall i :: 0 <= i < |args| && args[i] == flag ==> flag !in args[i + 1..]
  }

  /** `OptionValue` finds exactly the word after the first `flag` that has one. */
  lemma {:induction false} OptionValueIff(args: seq<string>, flag: string, v: string)
    ensures OptionValue(args, flag) == Some(v) <==>
      exists i :: 0 <= i < |args| - 1 && args[i] == flag && flag !in args[..i] && args[i + 1] == v
    decreases |args|
  {
    if |args| >= 2 {
      if args[0] == flag {
        assert args[..0] == [];
        forall i | 0 < i < |args| - 1 ensures flag in args[..i] {
          assert args[..i][0] == flag;
        }
      } else {
        var t := args[1..];
        OptionValueIff(t, flag, v);
        if OptionValue(args, flag) == Some(v) {
          var j :| 0 <= j < |t| - 1 && t[j] == flag && flag !in t[..j] && t[j + 1] == v;
          assert args[..j + 1] == [args[0]] + t[..j];
          assert args[j + 1] == flag && args[j + 2] == v;
        }
        forall i | 0 <= i < |args| - 1 && args[i] == flag && flag !in args[..i] && args[i + 1] == v
          ensures OptionValue(args, flag) == Some(v)
        {
          assert args[..i] == [args[0]] + t[..i - 1];
          assert t[i - 1] == flag && t[i] == v;
        }
      }
    }
  }

  /** The value after the first occurrence of `flag`, located by position. */
  lemma OptionValueAt(args: seq<string>, flag: string, i: int)
    requires 0 <= i < |args| - 1 && args[i] == flag && flag !in args[..i]
    ensures OptionValue(args, flag) == Some(args[i + 1])
  {
    OptionValueIff(args, flag, args[i + 1]);
  }

  /** A flag found at one position and nowhere else occurs at most once. */
  lemma OnceAt(args: seq<string>, flag: string, i: int)
    requires 0 <= i < |args| && args[i] == flag && flag !in args[..i] && flag !in args[i + 1..]
    ensures AtMostOnce(args, flag)
  {
    forall j | 0 <= j < |args| && j != i ensures args[j] != flag {
      if j < i {
        assert args[j] == args[..i][j];
      } else {
        assert args[j] == args[i + 1..][j - i - 1];
      }
    }
  }

  lemma OnceAbsent(args: seq<string>, flag: string)
    requires flag !in args
    ensures AtMostOnce(args, flag)
  {
    forall j | 0 <= j < |args| ensures args[j] != flag {
      assert args[j] in args;
    }
  }

  /** A flag found at one position and nowhere else: its value is the next
      word, and it occurs once. */
  lemma OptionAt(args: seq<string>, flag: string, i: int)
    requires 0 <= i < |args| - 1 && args[i] == flag && flag !in args[..i] && flag !in args[i + 1..]
    ensures OptionValue(args, flag) == Some(args[i + 1]) && AtMostOnce(args, flag)
  {
    OptionValueAt(args, flag, i);
    OnceAt(args, flag, i);
  }

  /** A program name in front that is not the flag changes neither the value
      nor the count. */
  lemma OptionsAfter(w: string, args: seq<string>, flag: string)
    requires w != flag && |args| > 0
    ensures OptionValue([w] + args, flag) == OptionValue(args, flag)
    ensures AtMostOnce([w] + args, flag) <==> AtMostOnce(args, flag)
  {
    var a := [w] + args;
    assert a[1..] == args;
    forall i | 1 <= i < |a| ensures a[i + 1..] == args[i..] {}
    if AtMostOnce(args, flag) {
      forall i | 0 <= i < |a| && a[i] == flag ensures flag !in a[i + 1..] {
        assert a[i] == args[i - 1];
      }
    }
    if AtMostOnce(a, flag) {
      forall i | 0 <= i < |args| && args[i] == flag ensures flag !in args[i + 1..] {
        assert a[i + 1] == flag && a[i + 2..] == args[i + 1..];
      }
    }
  }

  /** A flag that does not occur has no value. */
  lemma {:induction false} OptionValueAbsent(args: seq<string>, flag: string)
    requires flag !in args
    ensures OptionValue(args, flag) == None
    decreases |args|
  {
    if |args| >= 2 {
      assert args[1..] <= args[1..];
      assert forall x :: x in args[1..] ==> x in args;
      OptionValueAbsent(args[1..], flag);
    }
  }

  /** What follows the last `:` of an address (all of it when there is none). */
  function AfterLastColon(s: string): string
    decreases |s|
  {
    if |s| == 0 then "" else if s[|s| - 1] == ':' then "" else AfterLastColon(s[..|s| - 1]) + [s[|s| - 1]]
  }

  /** The port of `host:port` is `port`, whatever `host` is. */
  lemma {:induction false} PortOfBind(host: string, port: string)
    requires ':' !in port
    ensures AfterLastColon(host + ":" + port) == port
    decreases |port|
  {
    var s := host + ":" + port;
    if |port| == 0 {
      assert s[|s| - 1] == ':';
    } else {
      var init := port[..|port| - 1];
      assert s[..|s| - 1] == host + ":" + init;
      PortOfBind(host, init);
      assert init + [port[|port| - 1]] == port;
    }
  }

  /** Words joined by single spaces, as in a shell line. */
  function Unwords(ws: seq<string>): string
    decreases |ws|
  {
    if |ws| == 0 then "" else if |ws| == 1 then ws[0] else ws[0] + " " + Unwords(ws[1..])
  }
}
