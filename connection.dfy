/**
 * How the connection strings the two constructors build are read. A PDO MySQL data source
 * name is `mysql:` followed by `key=value` options separated by `;`; a value runs up to the
 * next `;`. The session command is read word by word.
 */
module Connection {
  import opened Strings
  import W = SimplePhpDbWrapper
  import L = Database

  /** The options of a `;`-separated option list, in order, each cut at its first `=`. */
  function OptionList(s: string): (kvs: seq<(string, string)>)
  {
    Pairs(Split(s, ';'))
  }

  function Pairs(segments: seq<string>): (kvs: seq<(string, string)>)
    ensures |kvs| == |segments|
    ensures forall i :: 0 <= i < |segments| ==> kvs[i] == KeyValue(segments[i])
  {
    if segments == [] then [] else [KeyValue(segments[0])] + Pairs(segments[1..])
  }

  /** The options of a data source name for the `mysql` driver; any other name has none. */
  function Options(dsn: string): (kvs: seq<(string, string)>)
  {
    if |dsn| >= 6 && dsn[..6] == "mysql:" then OptionList(dsn[6..]) else []
  }

  lemma OptionStep(k: string, v: string, rest: string)
    requires '=' !in k && ';' !in k && ';' !in v
    ensures OptionList(k + "=" + v + ";" + rest) == [(k, v)] + OptionList(rest)
  {
    SplitCons(k + "=" + v, rest, ';');
    KeyValueOf(k, v);
  }

  lemma OptionLast(k: string, v: string)
    requires '=' !in k && ';' !in k && ';' !in v
    ensures OptionList(k + "=" + v) == [(k, v)]
  {
    SplitWhole(k + "=" + v, ';');
    KeyValueOf(k, v);
  }

  lemma OptionsOfMysql(options: string)
    ensures Options("mysql:" + options) == OptionList(options)
  {
    var dsn := "mysql:" + options;
    assert dsn[..6] == "mysql:";
    assert dsn[6..] == options;
  }

  lemma PortCharsetOptions(port: string, charset: string)
    requires ';' !in port && ';' !in charset
    ensures OptionList("port" + "=" + port + ";" + ("charset" + "=" + charset)) == [("port", port), ("charset", charset)]
  {
    OptionLast("charset", charset);
    OptionStep("port", port, "charset" + "=" + charset);
  }

  lemma DbPortCharsetOptions(db: string, port: string, charset: string)
    requires ';' !in db && ';' !in port && ';' !in charset
    ensures OptionList("dbname" + "=" + db + ";" + ("port" + "=" + port + ";" + ("charset" + "=" + charset)))
         == [("dbname", db), ("port", port), ("charset", charset)]
  {
    PortCharsetOptions(port, charset);
    OptionStep("dbname", db, "port" + "=" + port + ";" + ("charset" + "=" + charset));
  }

  /** The namespaced constructor's data source name carries each connection field as its own option. */
  lemma WrapperDsnOptions(host: string, db: string, port: string, charset: string)
    requires ';' !in host && ';' !in db && ';' !in port && ';' !in charset
    ensures Options(W.Dsn(host, db, port, charset, false))
         == [("host", host), ("dbname", db), ("port", port), ("charset", charset)]
  {
    var d := "dbname" + "=" + db + ";" + ("port" + "=" + port + ";" + ("charset" + "=" + charset));
    DbPortCharsetOptions(db, port, charset);
    OptionStep("host", host, d);
    WrapperDsnText(host, db, port, charset);
    OptionsOfMysql("host" + "=" + host + ";" + d);
  }

  lemma WrapperDsnText(host: string, db: string, port: string, charset: string)
    ensures W.Dsn(host, db, port, charset, false)
         == "mysql:" + ("host" + "=" + host + ";" + ("dbname" + "=" + db + ";" + ("port" + "=" + port + ";" + ("charset" + "=" + charset))))
  {
  }

  lemma WrapperTestDsnText(host: string, port: string, charset: string)
    ensures W.Dsn(host, "", port, charset, true)
         == "mysql:" + ("host" + "=" + host + ";" + ("port" + "=" + port + ";" + ("charset" + "=" + charset)))
  {
  }

  /** Without a database name, as the test suite connects, the other three options remain, whenever no field contains `;`. */
  lemma WrapperTestDsnOptions(host: string, port: string, charset: string)
    requires ';' !in host && ';' !in port && ';' !in charset
    ensures Options(W.Dsn(host, "", port, charset, true)) == [("host", host), ("port", port), ("charset", charset)]
  {
    var p := "port" + "=" + port + ";" + ("charset" + "=" + charset);
    PortCharsetOptions(port, charset);
    OptionStep("host", host, p);
    WrapperTestDsnText(host, port, charset);
    OptionsOfMysql("host" + "=" + host + ";" + p);
  }

  /** Whenever no field contains `;`, the legacy data source name's charset is swallowed by the port's value. */
  lemma LegacyDsnOptions(host: string, db: string, port: string, charset: string)
    requires ';' !in host && ';' !in db && ';' !in port && ';' !in charset
    ensures Options(L.Dsn(host, db, port, charset))
         == [("host", host), ("dbname", db), ("port", port + "charset=" + charset)]
  {
    var p := "port" + "=" + (port + "charset=" + charset);
    var d := "dbname" + "=" + db + ";" + p;
    LegacyDbPortOptions(db, port, charset);
    OptionStep("host", host, d);
    LegacyDsnText(host, db, port, charset);
    OptionsOfMysql("host" + "=" + host + ";" + d);
  }

  lemma LegacyDsnText(host: string, db: string, port: string, charset: string)
    ensures L.Dsn(host, db, port, charset)
         == "mysql:" + ("host" + "=" + host + ";" + ("dbname" + "=" + db + ";" + ("port" + "=" + (port + "charset=" + charset))))
  {
  }

  lemma LegacyDbPortOptions(db: string, port: string, charset: string)
    requires ';' !in db && ';' !in port && ';' !in charset
    ensures OptionList("dbname" + "=" + db + ";" + ("port" + "=" + (port + "charset=" + charset)))
         == [("dbname", db), ("port", port + "charset=" + charset)]
  {
    OptionLast("port", port + "charset=" + charset);
    OptionStep("dbname", db, "port" + "=" + (port + "charset=" + charset));
  }

  /** Whenever no field contains `;`, the legacy data source name asks for no charset option. */
  lemma LegacyDsnHasNoCharset(host: string, db: string, port: string, charset: string)
    requires ';' !in host && ';' !in db && ';' !in port && ';' !in charset
    ensures forall i :: 0 <= i < |Options(L.Dsn(host, db, port, charset))| ==>
              Options(L.Dsn(host, db, port, charset))[i].0 != "charset"
  {
    LegacyDsnOptions(host, db, port, charset);
    assert "host" != "charset" && "dbname" != "charset" && "port" != "charset";
  }

  /** With its own fields the legacy class connects with port value `3306charset=utf8mb4`. */
  lemma LegacyDefaultDsnOptions()
    ensures Options(L.Dsn(L.Host, L.Db, L.Port, L.Charset))
         == [("host", L.Host), ("dbname", L.Db), ("port", L.Port + "charset=" + L.Charset)]
  {
    LegacyDsnOptions(L.Host, L.Db, L.Port, L.Charset);
  }

  lemma CollateWords(collation: string)
    requires ' ' !in collation
    ensures Split("COLLATE" + [' '] + collation, ' ') == ["COLLATE", collation]
  {
    SplitCons("COLLATE", collation, ' ');
    SplitWhole(collation, ' ');
  }

  lemma CharsetCollateWords(charset: string, collation: string)
    requires ' ' !in charset && ' ' !in collation
    ensures Split(charset + [' '] + ("COLLATE" + [' '] + collation), ' ') == [charset, "COLLATE", collation]
  {
    CollateWords(collation);
    SplitCons(charset, "COLLATE" + [' '] + collation, ' ');
  }

  lemma NamesWords(charset: string, collation: string)
    requires ' ' !in charset && ' ' !in collation
    ensures Split("names" + [' '] + (charset + [' '] + ("COLLATE" + [' '] + collation)), ' ')
         == ["names", charset, "COLLATE", collation]
  {
    CharsetCollateWords(charset, collation);
    SplitCons("names", charset + [' '] + ("COLLATE" + [' '] + collation), ' ');
  }

  /** Whenever neither charset nor collation contains a space, the session command reads as `set names <charset> COLLATE <collation>`. */
  lemma SessionCommandWords(charset: string, collation: string)
    requires ' ' !in charset && ' ' !in collation
    ensures Split(W.SessionCommand(charset, collation), ' ') == ["set", "names", charset, "COLLATE", collation]
  {
    var r1 := "names" + [' '] + (charset + [' '] + ("COLLATE" + [' '] + collation));
    SessionCommandText(charset, collation);
    NamesWords(charset, collation);
    SplitCons("set", r1, ' ');
  }

  lemma SessionCommandText(charset: string, collation: string)
    ensures W.SessionCommand(charset, collation) == "set" + [' '] + ("names" + [' '] + (charset + [' '] + ("COLLATE" + [' '] + collation)))
  {
  }
}
