/**
 * The examples of the test table of `Labelize`, each proved from the
 * definitions one pass at a time. The steps take the string as a parameter
 * equal to the literal, which keeps the verifier from evaluating the whole
 * pipeline on the literal at once.
 */
module LabelizeExamples {
  import opened Labelize
  import opened LabelizeProps

  /** Assembles a label from the results of its passes. */
  lemma {:induction false} LabelFromWords(input: string, ws: seq<string>, cased: seq<string>, out: seq<string>)
    requires input != "" && Words(input) == ws && ws != [] && CaseWords(ws) == cased
    requires out == if IsAcronym(cased[0]) then cased else cased[0 := Title(cased[0])]
    ensures LabelOf(input) == JoinWords(out)
  {
  }

  /** Test table of `Labelize`: the empty string gives the empty label. */
  lemma {:induction false} LabelEmpty()
    ensures LabelOf("") == ""
  {
  }

  lemma {:induction false} CamelHTTPRequestStatusStep0(s: string)
    requires |s| == 17 && s[0] == 'H' && s[1] == 'T' && s[2] == 'T' && s[3] == 'P' && s[4] == 'R' && s[5] == 'e' &&
      s[6] == 'q' && s[7] == 'u' && s[8] == 'e' && s[9] == 's' && s[10] == 't' && s[11] == 'S' && s[12] == 't' &&
      s[13] == 'a' && s[14] == 't' && s[15] == 'u' && s[16] == 's'
    ensures CamelSplit(s, 0) == "HTTP Re" + CamelSplit(s, 6)
  {
    UpperRunIs(s, 0, 5);
    assert s[0..4] == "HTTP" && s[4..6] == "Re";
  }

  lemma {:induction false} CamelHTTPRequestStatusStep1(s: string)
    requires |s| == 17 && s[0] == 'H' && s[1] == 'T' && s[2] == 'T' && s[3] == 'P' && s[4] == 'R' && s[5] == 'e' &&
      s[6] == 'q' && s[7] == 'u' && s[8] == 'e' && s[9] == 's' && s[10] == 't' && s[11] == 'S' && s[12] == 't' &&
      s[13] == 'a' && s[14] == 't' && s[15] == 'u' && s[16] == 's'
    ensures CamelSplit(s, 6) == "ques" + CamelSplit(s, 10)
  {
    assert NoBreakIn(s, 9, 10);
    assert NoBreakIn(s, 8, 10);
    assert NoBreakIn(s, 7, 10);
    CamelSplitCopies(s, 6, 10);
    assert s[6..10] == "ques";
  }

  lemma {:induction false} CamelHTTPRequestStatusStep2(s: string)
    requires |s| == 17 && s[0] == 'H' && s[1] == 'T' && s[2] == 'T' && s[3] == 'P' && s[4] == 'R' && s[5] == 'e' &&
      s[6] == 'q' && s[7] == 'u' && s[8] == 'e' && s[9] == 's' && s[10] == 't' && s[11] == 'S' && s[12] == 't' &&
      s[13] == 'a' && s[14] == 't' && s[15] == 'u' && s[16] == 's'
    ensures CamelSplit(s, 10) == "t S" + CamelSplit(s, 12)
  {
    UpperRunIs(s, 10, 0);
  }

  lemma {:induction false} CamelHTTPRequestStatusStep3(s: string)
    requires |s| == 17 && s[0] == 'H' && s[1] == 'T' && s[2] == 'T' && s[3] == 'P' && s[4] == 'R' && s[5] == 'e' &&
      s[6] == 'q' && s[7] == 'u' && s[8] == 'e' && s[9] == 's' && s[10] == 't' && s[11] == 'S' && s[12] == 't' &&
      s[13] == 'a' && s[14] == 't' && s[15] == 'u' && s[16] == 's'
    ensures CamelSplit(s, 12) == "tatus" + CamelSplit(s, 17)
  {
    assert NoBreakIn(s, 16, 17);
    assert NoBreakIn(s, 15, 17);
    assert NoBreakIn(s, 14, 17);
    assert NoBreakIn(s, 13, 17);
    CamelSplitCopies(s, 12, 17);
    assert s[12..17] == "tatus";
  }

  lemma {:induction false} CamelHTTPRequestStatus(s: string)
    requires |s| == 17 && s[0] == 'H' && s[1] == 'T' && s[2] == 'T' && s[3] == 'P' && s[4] == 'R' && s[5] == 'e' &&
      s[6] == 'q' && s[7] == 'u' && s[8] == 'e' && s[9] == 's' && s[10] == 't' && s[11] == 'S' && s[12] == 't' &&
      s[13] == 'a' && s[14] == 't' && s[15] == 'u' && s[16] == 's'
    ensures CamelSplit(s, 0) == "HTTP Request Status"
  {
    CamelHTTPRequestStatusStep0(s);
    CamelHTTPRequestStatusStep1(s);
    CamelHTTPRequestStatusStep2(s);
    CamelHTTPRequestStatusStep3(s);
  }

  lemma {:induction false} DelimsHTTPRequestStatus(s: string)
    requires |s| == 19 && s[0] == 'H' && s[1] == 'T' && s[2] == 'T' && s[3] == 'P' && s[4] == ' ' && s[5] == 'R' &&
      s[6] == 'e' && s[7] == 'q' && s[8] == 'u' && s[9] == 'e' && s[10] == 's' && s[11] == 't' && s[12] == ' ' &&
      s[13] == 'S' && s[14] == 't' && s[15] == 'a' && s[16] == 't' && s[17] == 'u' && s[18] == 's'
    ensures ReplaceDelims(s, 0, false) == "HTTP Request Status"
  {
    ReplaceDelimsCopies(s, 0, false);
  }

  lemma {:induction false} FieldsHTTPRequestStatus(s: string)
    requires s == "HTTP Request Status"
    ensures Fields(s) == ["HTTP", "Request", "Status"]
  {
    assert JoinWords(["HTTP", "Request", "Status"]) == "HTTP Request Status";
    FieldsOfJoin(["HTTP", "Request", "Status"]);
  }

  lemma {:induction false} WordsHTTPRequestStatus(s: string)
    requires s == "HTTPRequestStatus"
    ensures Words(s) == ["HTTP", "Request", "Status"]
  {
    CamelHTTPRequestStatus(s);
    DelimsHTTPRequestStatus("HTTP Request Status");
    FieldsHTTPRequestStatus("HTTP Request Status");
  }

  lemma {:induction false} CaseHTTPRequestStatus(ws: seq<string>)
    requires ws == ["HTTP", "Request", "Status"]
    ensures CaseWords(ws) == ["HTTP", "request", "status"]
  {
    assert ToUpper("HTTP") == "HTTP";
    assert ToUpper("Request")[1] == 'E';
    assert ToLower("Request") == "request";
    assert ToUpper("Status")[1] == 'T';
    assert ToLower("Status") == "status";
  }

  lemma {:induction false} FirstHTTPRequestStatus(w: string)
    requires w == "HTTP"
    ensures IsAcronym(w)
  {
    assert ToUpper(w) == w;
  }

  lemma {:induction false} JoinHTTPRequestStatus(ws: seq<string>)
    requires ws == ["HTTP", "request", "status"]
    ensures JoinWords(ws) == "HTTP request status"
  {
    assert JoinWords(ws[2..]) == "status";
    assert JoinWords(ws[1..]) == "request status";
  }

  lemma {:induction false} LabelOfHTTPRequestStatus(s: string)
    requires s != "" && Words(s) == ["HTTP", "Request", "Status"]
    ensures LabelOf(s) == "HTTP request status"
  {
    CaseHTTPRequestStatus(["HTTP", "Request", "Status"]);
    FirstHTTPRequestStatus("HTTP");
    JoinHTTPRequestStatus(["HTTP", "request", "status"]);
    LabelFromWords(s, ["HTTP", "Request", "Status"], ["HTTP", "request", "status"], ["HTTP", "request", "status"]);
  }

  /** Test table of `Labelize`: "HTTPRequestStatus" gives "HTTP request status". */
  lemma {:induction false} LabelHTTPRequestStatus()
    ensures LabelOf("HTTPRequestStatus") == "HTTP request status"
  {
    WordsHTTPRequestStatus("HTTPRequestStatus");
    LabelOfHTTPRequestStatus("HTTPRequestStatus");
  }

  lemma {:induction false} CamelAPIClientStep0(s: string)
    requires |s| == 9 && s[0] == 'A' && s[1] == 'P' && s[2] == 'I' && s[3] == 'C' && s[4] == 'l' && s[5] == 'i' &&
      s[6] == 'e' && s[7] == 'n' && s[8] == 't'
    ensures CamelSplit(s, 0) == "API Cl" + CamelSplit(s, 5)
  {
    UpperRunIs(s, 0, 4);
    assert s[0..3] == "API" && s[3..5] == "Cl";
  }

  lemma {:induction false} CamelAPIClientStep1(s: string)
    requires |s| == 9 && s[0] == 'A' && s[1] == 'P' && s[2] == 'I' && s[3] == 'C' && s[4] == 'l' && s[5] == 'i' &&
      s[6] == 'e' && s[7] == 'n' && s[8] == 't'
    ensures CamelSplit(s, 5) == "ient" + CamelSplit(s, 9)
  {
    assert NoBreakIn(s, 8, 9);
    assert NoBreakIn(s, 7, 9);
    assert NoBreakIn(s, 6, 9);
    CamelSplitCopies(s, 5, 9);
    assert s[5..9] == "ient";
  }

  lemma {:induction false} CamelAPIClient(s: string)
    requires |s| == 9 && s[0] == 'A' && s[1] == 'P' && s[2] == 'I' && s[3] == 'C' && s[4] == 'l' && s[5] == 'i' &&
      s[6] == 'e' && s[7] == 'n' && s[8] == 't'
    ensures CamelSplit(s, 0) == "API Client"
  {
    CamelAPIClientStep0(s);
    CamelAPIClientStep1(s);
  }

  lemma {:induction false} DelimsAPIClient(s: string)
    requires |s| == 10 && s[0] == 'A' && s[1] == 'P' && s[2] == 'I' && s[3] == ' ' && s[4] == 'C' && s[5] == 'l' &&
      s[6] == 'i' && s[7] == 'e' && s[8] == 'n' && s[9] == 't'
    ensures ReplaceDelims(s, 0, false) == "API Client"
  {
    ReplaceDelimsCopies(s, 0, false);
  }

  lemma {:induction false} FieldsAPIClient(s: string)
    requires s == "API Client"
    ensures Fields(s) == ["API", "Client"]
  {
    assert JoinWords(["API", "Client"]) == "API Client";
    FieldsOfJoin(["API", "Client"]);
  }

  lemma {:induction false} WordsAPIClient(s: string)
    requires s == "APIClient"
    ensures Words(s) == ["API", "Client"]
  {
    CamelAPIClient(s);
    DelimsAPIClient("API Client");
    FieldsAPIClient("API Client");
  }

  lemma {:induction false} CaseAPIClient(ws: seq<string>)
    requires ws == ["API", "Client"]
    ensures CaseWords(ws) == ["API", "client"]
  {
    assert ToUpper("API") == "API";
    assert ToUpper("Client")[1] == 'L';
    assert ToLower("Client") == "client";
  }

  lemma {:induction false} FirstAPIClient(w: string)
    requires w == "API"
    ensures IsAcronym(w)
  {
    assert ToUpper(w) == w;
  }

  lemma {:induction false} JoinAPIClient(ws: seq<string>)
    requires ws == ["API", "client"]
    ensures JoinWords(ws) == "API client"
  {
    assert JoinWords(ws[1..]) == "client";
  }

  lemma {:induction false} LabelOfAPIClient(s: string)
    requires s != "" && Words(s) == ["API", "Client"]
    ensures LabelOf(s) == "API client"
  {
    CaseAPIClient(["API", "Client"]);
    FirstAPIClient("API");
    JoinAPIClient(["API", "client"]);
    LabelFromWords(s, ["API", "Client"], ["API", "client"], ["API", "client"]);
  }

  /** Test table of `Labelize`: "APIClient" gives "API client". */
  lemma {:induction false} LabelAPIClient()
    ensures LabelOf("APIClient") == "API client"
  {
    WordsAPIClient("APIClient");
    LabelOfAPIClient("APIClient");
  }

  lemma {:induction false} CamelGetHTTPServerStep0(s: string)
    requires |s| == 13 && s[0] == 'g' && s[1] == 'e' && s[2] == 't' && s[3] == 'H' && s[4] == 'T' && s[5] == 'T' &&
      s[6] == 'P' && s[7] == 'S' && s[8] == 'e' && s[9] == 'r' && s[10] == 'v' && s[11] == 'e' && s[12] == 'r'
    ensures CamelSplit(s, 0) == "ge" + CamelSplit(s, 2)
  {
    assert NoBreakIn(s, 1, 2);
    CamelSplitCopies(s, 0, 2);
    assert s[0..2] == "ge";
  }

  lemma {:induction false} CamelGetHTTPServerStep1(s: string)
    requires |s| == 13 && s[0] == 'g' && s[1] == 'e' && s[2] == 't' && s[3] == 'H' && s[4] == 'T' && s[5] == 'T' &&
      s[6] == 'P' && s[7] == 'S' && s[8] == 'e' && s[9] == 'r' && s[10] == 'v' && s[11] == 'e' && s[12] == 'r'
    ensures CamelSplit(s, 2) == "t H" + CamelSplit(s, 4)
  {
    UpperRunIs(s, 2, 0);
  }

  lemma {:induction false} CamelGetHTTPServerStep2(s: string)
    requires |s| == 13 && s[0] == 'g' && s[1] == 'e' && s[2] == 't' && s[3] == 'H' && s[4] == 'T' && s[5] == 'T' &&
      s[6] == 'P' && s[7] == 'S' && s[8] == 'e' && s[9] == 'r' && s[10] == 'v' && s[11] == 'e' && s[12] == 'r'
    ensures CamelSplit(s, 4) == "TTP Se" + CamelSplit(s, 9)
  {
    UpperRunIs(s, 4, 4);
    assert s[4..7] == "TTP" && s[7..9] == "Se";
  }

  lemma {:induction false} CamelGetHTTPServerStep3(s: string)
    requires |s| == 13 && s[0] == 'g' && s[1] == 'e' && s[2] == 't' && s[3] == 'H' && s[4] == 'T' && s[5] == 'T' &&
      s[6] == 'P' && s[7] == 'S' && s[8] == 'e' && s[9] == 'r' && s[10] == 'v' && s[11] == 'e' && s[12] == 'r'
    ensures CamelSplit(s, 9) == "rver" + CamelSplit(s, 13)
  {
    assert NoBreakIn(s, 12, 13);
    assert NoBreakIn(s, 11, 13);
    assert NoBreakIn(s, 10, 13);
    CamelSplitCopies(s, 9, 13);
    assert s[9..13] == "rver";
  }

  lemma {:induction false} CamelGetHTTPServer(s: string)
    requires |s| == 13 && s[0] == 'g' && s[1] == 'e' && s[2] == 't' && s[3] == 'H' && s[4] == 'T' && s[5] == 'T' &&
      s[6] == 'P' && s[7] == 'S' && s[8] == 'e' && s[9] == 'r' && s[10] == 'v' && s[11] == 'e' && s[12] == 'r'
    ensures CamelSplit(s, 0) == "get HTTP Server"
  {
    CamelGetHTTPServerStep0(s);
    CamelGetHTTPServerStep1(s);
    CamelGetHTTPServerStep2(s);
    CamelGetHTTPServerStep3(s);
  }

  lemma {:induction false} DelimsGetHTTPServer(s: string)
    requires |s| == 15 && s[0] == 'g' && s[1] == 'e' && s[2] == 't' && s[3] == ' ' && s[4] == 'H' && s[5] == 'T' &&
      s[6] == 'T' && s[7] == 'P' && s[8] == ' ' && s[9] == 'S' && s[10] == 'e' && s[11] == 'r' && s[12] == 'v' &&
      s[13] == 'e' && s[14] == 'r'
    ensures ReplaceDelims(s, 0, false) == "get HTTP Server"
  {
    ReplaceDelimsCopies(s, 0, false);
  }

  lemma {:induction false} FieldsGetHTTPServer(s: string)
    requires s == "get HTTP Server"
    ensures Fields(s) == ["get", "HTTP", "Server"]
  {
    assert JoinWords(["get", "HTTP", "Server"]) == "get HTTP Server";
    FieldsOfJoin(["get", "HTTP", "Server"]);
  }

  lemma {:induction false} WordsGetHTTPServer(s: string)
    requires s == "getHTTPServer"
    ensures Words(s) == ["get", "HTTP", "Server"]
  {
    CamelGetHTTPServer(s);
    DelimsGetHTTPServer("get HTTP Server");
    FieldsGetHTTPServer("get HTTP Server");
  }

  lemma {:induction false} CaseGetHTTPServer(ws: seq<string>)
    requires ws == ["get", "HTTP", "Server"]
    ensures CaseWords(ws) == ["get", "HTTP", "server"]
  {
    assert ToUpper("get")[0] == 'G';
    assert ToLower("get") == "get";
    assert ToUpper("HTTP") == "HTTP";
    assert ToUpper("Server")[1] == 'E';
    assert ToLower("Server") == "server";
  }

  lemma {:induction false} FirstGetHTTPServer(w: string)
    requires w == "get"
    ensures !IsAcronym(w) && Title(w) == "Get"
  {
    assert ToUpper(w)[0] == 'G';
    TitleOfPlainWord(w);
    assert UpperChar(w[0]) == 'G';
  }

  lemma {:induction false} JoinGetHTTPServer(ws: seq<string>)
    requires ws == ["Get", "HTTP", "server"]
    ensures JoinWords(ws) == "Get HTTP server"
  {
    assert JoinWords(ws[2..]) == "server";
    assert JoinWords(ws[1..]) == "HTTP server";
  }

  lemma {:induction false} LabelOfGetHTTPServer(s: string)
    requires s != "" && Words(s) == ["get", "HTTP", "Server"]
    ensures LabelOf(s) == "Get HTTP server"
  {
    CaseGetHTTPServer(["get", "HTTP", "Server"]);
    FirstGetHTTPServer("get");
    JoinGetHTTPServer(["Get", "HTTP", "server"]);
    LabelFromWords(s, ["get", "HTTP", "Server"], ["get", "HTTP", "server"], ["Get", "HTTP", "server"]);
  }

  /** Test table of `Labelize`: "getHTTPServer" gives "Get HTTP server". */
  lemma {:induction false} LabelGetHTTPServer()
    ensures LabelOf("getHTTPServer") == "Get HTTP server"
  {
    WordsGetHTTPServer("getHTTPServer");
    LabelOfGetHTTPServer("getHTTPServer");
  }

  lemma {:induction false} CamelHelloworldStep0(s: string)
    requires |s| == 11 && s[0] == 'h' && s[1] == 'e' && s[2] == 'l' && s[3] == 'l' && s[4] == 'o' && s[5] == '_' &&
      s[6] == 'w' && s[7] == 'o' && s[8] == 'r' && s[9] == 'l' && s[10] == 'd'
    ensures CamelSplit(s, 0) == "hello" + CamelSplit(s, 5)
  {
    assert NoBreakIn(s, 4, 5);
    assert NoBreakIn(s, 3, 5);
    assert NoBreakIn(s, 2, 5);
    assert NoBreakIn(s, 1, 5);
    CamelSplitCopies(s, 0, 5);
    assert s[0..5] == "hello";
  }

  lemma {:induction false} CamelHelloworldStep1(s: string)
    requires |s| == 11 && s[0] == 'h' && s[1] == 'e' && s[2] == 'l' && s[3] == 'l' && s[4] == 'o' && s[5] == '_' &&
      s[6] == 'w' && s[7] == 'o' && s[8] == 'r' && s[9] == 'l' && s[10] == 'd'
    ensures CamelSplit(s, 5) == "_worl" + CamelSplit(s, 10)
  {
    assert NoBreakIn(s, 9, 10);
    assert NoBreakIn(s, 8, 10);
    assert NoBreakIn(s, 7, 10);
    assert NoBreakIn(s, 6, 10);
    CamelSplitCopies(s, 5, 10);
    assert s[5..10] == "_worl";
  }

  lemma {:induction false} CamelHelloworldStep2(s: string)
    requires |s| == 11 && s[0] == 'h' && s[1] == 'e' && s[2] == 'l' && s[3] == 'l' && s[4] == 'o' && s[5] == '_' &&
      s[6] == 'w' && s[7] == 'o' && s[8] == 'r' && s[9] == 'l' && s[10] == 'd'
    ensures CamelSplit(s, 10) == "d" + CamelSplit(s, 11)
  {
    CamelSplitCopies(s, 10, 11);
  }

  lemma {:induction false} CamelHelloworld(s: string)
    requires |s| == 11 && s[0] == 'h' && s[1] == 'e' && s[2] == 'l' && s[3] == 'l' && s[4] == 'o' && s[5] == '_' &&
      s[6] == 'w' && s[7] == 'o' && s[8] == 'r' && s[9] == 'l' && s[10] == 'd'
    ensures CamelSplit(s, 0) == "hello_world"
  {
    CamelHelloworldStep0(s);
    CamelHelloworldStep1(s);
    CamelHelloworldStep2(s);
  }

  lemma {:induction false} DelimsHelloworldStep0(s: string)
    requires |s| == 11 && s[0] == 'h' && s[1] == 'e' && s[2] == 'l' && s[3] == 'l' && s[4] == 'o' && s[5] == '_' &&
      s[6] == 'w' && s[7] == 'o' && s[8] == 'r' && s[9] == 'l' && s[10] == 'd'
    ensures ReplaceDelims(s, 0, false) == "hello" + ReplaceDelims(s, 5, false)
  {
    ReplaceDelimsCopiesUpTo(s, 0, 5, false);
    assert s[0..5] == "hello";
  }

  lemma {:induction false} DelimsHelloworldStep1(s: string)
    requires |s| == 11 && s[0] == 'h' && s[1] == 'e' && s[2] == 'l' && s[3] == 'l' && s[4] == 'o' && s[5] == '_' &&
      s[6] == 'w' && s[7] == 'o' && s[8] == 'r' && s[9] == 'l' && s[10] == 'd'
    ensures ReplaceDelims(s, 5, false) == " " + ReplaceDelims(s, 6, true)
  {
    ReplaceDelimsRun(s, 5, 6, false);
  }

  lemma {:induction false} DelimsHelloworldStep2(s: string)
    requires |s| == 11 && s[0] == 'h' && s[1] == 'e' && s[2] == 'l' && s[3] == 'l' && s[4] == 'o' && s[5] == '_' &&
      s[6] == 'w' && s[7] == 'o' && s[8] == 'r' && s[9] == 'l' && s[10] == 'd'
    ensures ReplaceDelims(s, 6, true) == "world" + ReplaceDelims(s, 11, false)
  {
    ReplaceDelimsCopiesUpTo(s, 6, 11, true);
    assert s[6..11] == "world";
  }

  lemma {:induction false} DelimsHelloworld(s: string)
    requires |s| == 11 && s[0] == 'h' && s[1] == 'e' && s[2] == 'l' && s[3] == 'l' && s[4] == 'o' && s[5] == '_' &&
      s[6] == 'w' && s[7] == 'o' && s[8] == 'r' && s[9] == 'l' && s[10] == 'd'
    ensures ReplaceDelims(s, 0, false) == "hello world"
  {
    DelimsHelloworldStep0(s);
    DelimsHelloworldStep1(s);
    DelimsHelloworldStep2(s);
    assert ReplaceDelims(s, 11, false) == "";
  }

  lemma {:induction false} FieldsHelloworld(s: string)
    requires s == "hello world"
    ensures Fields(s) == ["hello", "world"]
  {
    assert JoinWords(["hello", "world"]) == "hello world";
    FieldsOfJoin(["hello", "world"]);
  }

  lemma {:induction false} WordsHelloworld(s: string)
    requires s == "hello_world"
    ensures Words(s) == ["hello", "world"]
  {
    CamelHelloworld(s);
    DelimsHelloworld("hello_world");
    FieldsHelloworld("hello world");
  }

  lemma {:induction false} CaseHelloworld(ws: seq<string>)
    requires ws == ["hello", "world"]
    ensures CaseWords(ws) == ["hello", "world"]
  {
    assert ToUpper("hello")[0] == 'H';
    assert ToLower("hello") == "hello";
    assert ToUpper("world")[0] == 'W';
    assert ToLower("world") == "world";
  }

  lemma {:induction false} FirstHelloworld(w: string)
    requires w == "hello"
    ensures !IsAcronym(w) && Title(w) == "Hello"
  {
    assert ToUpper(w)[0] == 'H';
    TitleOfPlainWord(w);
    assert UpperChar(w[0]) == 'H';
  }

  lemma {:induction false} JoinHelloworld(ws: seq<string>)
    requires ws == ["Hello", "world"]
    ensures JoinWords(ws) == "Hello world"
  {
    assert JoinWords(ws[1..]) == "world";
  }

  lemma {:induction false} LabelOfHelloworld(s: string)
    requires s != "" && Words(s) == ["hello", "world"]
    ensures LabelOf(s) == "Hello world"
  {
    CaseHelloworld(["hello", "world"]);
    FirstHelloworld("hello");
    JoinHelloworld(["Hello", "world"]);
    LabelFromWords(s, ["hello", "world"], ["hello", "world"], ["Hello", "world"]);
  }

  /** Test table of `Labelize`: "hello_world" gives "Hello world". */
  lemma {:induction false} LabelHelloworld()
    ensures LabelOf("hello_world") == "Hello world"
  {
    WordsHelloworld("hello_world");
    LabelOfHelloworld("hello_world");
  }

  lemma {:induction false} CamelMyXMLparserStep0(s: string)
    requires |s| == 13 && s[0] == 'm' && s[1] == 'y' && s[2] == '-' && s[3] == 'X' && s[4] == 'M' && s[5] == 'L' &&
      s[6] == '-' && s[7] == 'p' && s[8] == 'a' && s[9] == 'r' && s[10] == 's' && s[11] == 'e' && s[12] == 'r'
    ensures CamelSplit(s, 0) == "my-XM" + CamelSplit(s, 5)
  {
    UpperRunIs(s, 3, 3);
    UpperRunIs(s, 4, 2);
    assert NoBreakIn(s, 4, 5);
    assert NoBreakIn(s, 3, 5);
    assert NoBreakIn(s, 2, 5);
    assert NoBreakIn(s, 1, 5);
    CamelSplitCopies(s, 0, 5);
    assert s[0..5] == "my-XM";
  }

  lemma {:induction false} CamelMyXMLparserStep1(s: string)
    requires |s| == 13 && s[0] == 'm' && s[1] == 'y' && s[2] == '-' && s[3] == 'X' && s[4] == 'M' && s[5] == 'L' &&
      s[6] == '-' && s[7] == 'p' && s[8] == 'a' && s[9] == 'r' && s[10] == 's' && s[11] == 'e' && s[12] == 'r'
    ensures CamelSplit(s, 5) == "L-par" + CamelSplit(s, 10)
  {
    UpperRunIs(s, 5, 1);
    assert NoBreakIn(s, 9, 10);
    assert NoBreakIn(s, 8, 10);
    assert NoBreakIn(s, 7, 10);
    assert NoBreakIn(s, 6, 10);
    CamelSplitCopies(s, 5, 10);
    assert s[5..10] == "L-par";
  }

  lemma {:induction false} CamelMyXMLparserStep2(s: string)
    requires |s| == 13 && s[0] == 'm' && s[1] == 'y' && s[2] == '-' && s[3] == 'X' && s[4] == 'M' && s[5] == 'L' &&
      s[6] == '-' && s[7] == 'p' && s[8] == 'a' && s[9] == 'r' && s[10] == 's' && s[11] == 'e' && s[12] == 'r'
    ensures CamelSplit(s, 10) == "ser" + CamelSplit(s, 13)
  {
    assert NoBreakIn(s, 12, 13);
    assert NoBreakIn(s, 11, 13);
    CamelSplitCopies(s, 10, 13);
    assert s[10..13] == "ser";
  }

  lemma {:induction false} CamelMyXMLparser(s: string)
    requires |s| == 13 && s[0] == 'm' && s[1] == 'y' && s[2] == '-' && s[3] == 'X' && s[4] == 'M' && s[5] == 'L' &&
      s[6] == '-' && s[7] == 'p' && s[8] == 'a' && s[9] == 'r' && s[10] == 's' && s[11] == 'e' && s[12] == 'r'
    ensures CamelSplit(s, 0) == "my-XML-parser"
  {
    CamelMyXMLparserStep0(s);
    CamelMyXMLparserStep1(s);
    CamelMyXMLparserStep2(s);
  }

  lemma {:induction false} DelimsMyXMLparserStep0(s: string)
    requires |s| == 13 && s[0] == 'm' && s[1] == 'y' && s[2] == '-' && s[3] == 'X' && s[4] == 'M' && s[5] == 'L' &&
      s[6] == '-' && s[7] == 'p' && s[8] == 'a' && s[9] == 'r' && s[10] == 's' && s[11] == 'e' && s[12] == 'r'
    ensures ReplaceDelims(s, 0, false) == "my" + ReplaceDelims(s, 2, false)
  {
    ReplaceDelimsCopiesUpTo(s, 0, 2, false);
    assert s[0..2] == "my";
  }

  lemma {:induction false} DelimsMyXMLparserStep1(s: string)
    requires |s| == 13 && s[0] == 'm' && s[1] == 'y' && s[2] == '-' && s[3] == 'X' && s[4] == 'M' && s[5] == 'L' &&
      s[6] == '-' && s[7] == 'p' && s[8] == 'a' && s[9] == 'r' && s[10] == 's' && s[11] == 'e' && s[12] == 'r'
    ensures ReplaceDelims(s, 2, false) == " " + ReplaceDelims(s, 3, true)
  {
    ReplaceDelimsRun(s, 2, 3, false);
  }

  lemma {:induction false} DelimsMyXMLparserStep2(s: string)
    requires |s| == 13 && s[0] == 'm' && s[1] == 'y' && s[2] == '-' && s[3] == 'X' && s[4] == 'M' && s[5] == 'L' &&
      s[6] == '-' && s[7] == 'p' && s[8] == 'a' && s[9] == 'r' && s[10] == 's' && s[11] == 'e' && s[12] == 'r'
    ensures ReplaceDelims(s, 3, true) == "XML" + ReplaceDelims(s, 6, false)
  {
    ReplaceDelimsCopiesUpTo(s, 3, 6, true);
    assert s[3..6] == "XML";
  }

  lemma {:induction false} DelimsMyXMLparserStep3(s: string)
    requires |s| == 13 && s[0] == 'm' && s[1] == 'y' && s[2] == '-' && s[3] == 'X' && s[4] == 'M' && s[5] == 'L' &&
      s[6] == '-' && s[7] == 'p' && s[8] == 'a' && s[9] == 'r' && s[10] == 's' && s[11] == 'e' && s[12] == 'r'
    ensures ReplaceDelims(s, 6, false) == " " + ReplaceDelims(s, 7, true)
  {
    ReplaceDelimsRun(s, 6, 7, false);
  }

  lemma {:induction false} DelimsMyXMLparserStep4(s: string)
    requires |s| == 13 && s[0] == 'm' && s[1] == 'y' && s[2] == '-' && s[3] == 'X' && s[4] == 'M' && s[5] == 'L' &&
      s[6] == '-' && s[7] == 'p' && s[8] == 'a' && s[9] == 'r' && s[10] == 's' && s[11] == 'e' && s[12] == 'r'
    ensures ReplaceDelims(s, 7, true) == "parser" + ReplaceDelims(s, 13, false)
  {
    ReplaceDelimsCopiesUpTo(s, 7, 13, true);
    assert s[7..13] == "parser";
  }

  lemma {:induction false} DelimsMyXMLparser(s: string)
    requires |s| == 13 && s[0] == 'm' && s[1] == 'y' && s[2] == '-' && s[3] == 'X' && s[4] == 'M' && s[5] == 'L' &&
      s[6] == '-' && s[7] == 'p' && s[8] == 'a' && s[9] == 'r' && s[10] == 's' && s[11] == 'e' && s[12] == 'r'
    ensures ReplaceDelims(s, 0, false) == "my XML parser"
  {
    DelimsMyXMLparserStep0(s);
    DelimsMyXMLparserStep1(s);
    DelimsMyXMLparserStep2(s);
    DelimsMyXMLparserStep3(s);
    DelimsMyXMLparserStep4(s);
    assert ReplaceDelims(s, 13, false) == "";
  }

  lemma {:induction false} FieldsMyXMLparser(s: string)
    requires s == "my XML parser"
    ensures Fields(s) == ["my", "XML", "parser"]
  {
    assert JoinWords(["my", "XML", "parser"]) == "my XML parser";
    FieldsOfJoin(["my", "XML", "parser"]);
  }

  lemma {:induction false} WordsMyXMLparser(s: string)
    requires s == "my-XML-parser"
    ensures Words(s) == ["my", "XML", "parser"]
  {
    CamelMyXMLparser(s);
    DelimsMyXMLparser("my-XML-parser");
    FieldsMyXMLparser("my XML parser");
  }

  lemma {:induction false} CaseMyXMLparser(ws: seq<string>)
    requires ws == ["my", "XML", "parser"]
    ensures CaseWords(ws) == ["my", "XML", "parser"]
  {
    assert ToUpper("my")[0] == 'M';
    assert ToLower("my") == "my";
    assert ToUpper("XML") == "XML";
    assert ToUpper("parser")[0] == 'P';
    assert ToLower("parser") == "parser";
  }

  lemma {:induction false} FirstMyXMLparser(w: string)
    requires w == "my"
    ensures !IsAcronym(w) && Title(w) == "My"
  {
    assert ToUpper(w)[0] == 'M';
    TitleOfPlainWord(w);
    assert UpperChar(w[0]) == 'M';
  }

  lemma {:induction false} JoinMyXMLparser(ws: seq<string>)
    requires ws == ["My", "XML", "parser"]
    ensures JoinWords(ws) == "My XML parser"
  {
    assert JoinWords(ws[2..]) == "parser";
    assert JoinWords(ws[1..]) == "XML parser";
  }

  lemma {:induction false} LabelOfMyXMLparser(s: string)
    requires s != "" && Words(s) == ["my", "XML", "parser"]
    ensures LabelOf(s) == "My XML parser"
  {
    CaseMyXMLparser(["my", "XML", "parser"]);
    FirstMyXMLparser("my");
    JoinMyXMLparser(["My", "XML", "parser"]);
    LabelFromWords(s, ["my", "XML", "parser"], ["my", "XML", "parser"], ["My", "XML", "parser"]);
  }

  /** Test table of `Labelize`: "my-XML-parser" gives "My XML parser". */
  lemma {:induction false} LabelMyXMLparser()
    ensures LabelOf("my-XML-parser") == "My XML parser"
  {
    WordsMyXMLparser("my-XML-parser");
    LabelOfMyXMLparser("my-XML-parser");
  }

  lemma {:induction false} CamelParseJSONFileStep0(s: string)
    requires |s| == 13 && s[0] == 'P' && s[1] == 'a' && s[2] == 'r' && s[3] == 's' && s[4] == 'e' && s[5] == 'J' &&
      s[6] == 'S' && s[7] == 'O' && s[8] == 'N' && s[9] == 'F' && s[10] == 'i' && s[11] == 'l' && s[12] == 'e'
    ensures CamelSplit(s, 0) == "Pars" + CamelSplit(s, 4)
  {
    UpperRunIs(s, 0, 1);
    assert NoBreakIn(s, 3, 4);
    assert NoBreakIn(s, 2, 4);
    assert NoBreakIn(s, 1, 4);
    CamelSplitCopies(s, 0, 4);
    assert s[0..4] == "Pars";
  }

  lemma {:induction false} CamelParseJSONFileStep1(s: string)
    requires |s| == 13 && s[0] == 'P' && s[1] == 'a' && s[2] == 'r' && s[3] == 's' && s[4] == 'e' && s[5] == 'J' &&
      s[6] == 'S' && s[7] == 'O' && s[8] == 'N' && s[9] == 'F' && s[10] == 'i' && s[11] == 'l' && s[12] == 'e'
    ensures CamelSplit(s, 4) == "e J" + CamelSplit(s, 6)
  {
    UpperRunIs(s, 4, 0);
  }

  lemma {:induction false} CamelParseJSONFileStep2(s: string)
    requires |s| == 13 && s[0] == 'P' && s[1] == 'a' && s[2] == 'r' && s[3] == 's' && s[4] == 'e' && s[5] == 'J' &&
      s[6] == 'S' && s[7] == 'O' && s[8] == 'N' && s[9] == 'F' && s[10] == 'i' && s[11] == 'l' && s[12] == 'e'
    ensures CamelSplit(s, 6) == "SON Fi" + CamelSplit(s, 11)
  {
    UpperRunIs(s, 6, 4);
    assert s[6..9] == "SON" && s[9..11] == "Fi";
  }

  lemma {:induction false} CamelParseJSONFileStep3(s: string)
    requires |s| == 13 && s[0] == 'P' && s[1] == 'a' && s[2] == 'r' && s[3] == 's' && s[4] == 'e' && s[5] == 'J' &&
      s[6] == 'S' && s[7] == 'O' && s[8] == 'N' && s[9] == 'F' && s[10] == 'i' && s[11] == 'l' && s[12] == 'e'
    ensures CamelSplit(s, 11) == "le" + CamelSplit(s, 13)
  {
    assert NoBreakIn(s, 12, 13);
    CamelSplitCopies(s, 11, 13);
    assert s[11..13] == "le";
  }

  lemma {:induction false} CamelParseJSONFile(s: string)
    requires |s| == 13 && s[0] == 'P' && s[1] == 'a' && s[2] == 'r' && s[3] == 's' && s[4] == 'e' && s[5] == 'J' &&
      s[6] == 'S' && s[7] == 'O' && s[8] == 'N' && s[9] == 'F' && s[10] == 'i' && s[11] == 'l' && s[12] == 'e'
    ensures CamelSplit(s, 0) == "Parse JSON File"
  {
    CamelParseJSONFileStep0(s);
    CamelParseJSONFileStep1(s);
    CamelParseJSONFileStep2(s);
    CamelParseJSONFileStep3(s);
  }

  lemma {:induction false} DelimsParseJSONFile(s: string)
    requires |s| == 15 && s[0] == 'P' && s[1] == 'a' && s[2] == 'r' && s[3] == 's' && s[4] == 'e' && s[5] == ' ' &&
      s[6] == 'J' && s[7] == 'S' && s[8] == 'O' && s[9] == 'N' && s[10] == ' ' && s[11] == 'F' && s[12] == 'i' &&
      s[13] == 'l' && s[14] == 'e'
    ensures ReplaceDelims(s, 0, false) == "Parse JSON File"
  {
    ReplaceDelimsCopies(s, 0, false);
  }

  lemma {:induction false} FieldsParseJSONFile(s: string)
    requires s == "Parse JSON File"
    ensures Fields(s) == ["Parse", "JSON", "File"]
  {
    assert JoinWords(["Parse", "JSON", "File"]) == "Parse JSON File";
    FieldsOfJoin(["Parse", "JSON", "File"]);
  }

  lemma {:induction false} WordsParseJSONFile(s: string)
    requires s == "ParseJSONFile"
    ensures Words(s) == ["Parse", "JSON", "File"]
  {
    CamelParseJSONFile(s);
    DelimsParseJSONFile("Parse JSON File");
    FieldsParseJSONFile("Parse JSON File");
  }

  lemma {:induction false} CaseParseJSONFile(ws: seq<string>)
    requires ws == ["Parse", "JSON", "File"]
    ensures CaseWords(ws) == ["parse", "JSON", "file"]
  {
    assert ToUpper("Parse")[1] == 'A';
    assert ToLower("Parse") == "parse";
    assert ToUpper("JSON") == "JSON";
    assert ToUpper("File")[1] == 'I';
    assert ToLower("File") == "file";
  }

  lemma {:induction false} FirstParseJSONFile(w: string)
    requires w == "parse"
    ensures !IsAcronym(w) && Title(w) == "Parse"
  {
    assert ToUpper(w)[0] == 'P';
    TitleOfPlainWord(w);
    assert UpperChar(w[0]) == 'P';
  }

  lemma {:induction false} JoinParseJSONFile(ws: seq<string>)
    requires ws == ["Parse", "JSON", "file"]
    ensures JoinWords(ws) == "Parse JSON file"
  {
    assert JoinWords(ws[2..]) == "file";
    assert JoinWords(ws[1..]) == "JSON file";
  }

  lemma {:induction false} LabelOfParseJSONFile(s: string)
    requires s != "" && Words(s) == ["Parse", "JSON", "File"]
    ensures LabelOf(s) == "Parse JSON file"
  {
    CaseParseJSONFile(["Parse", "JSON", "File"]);
    FirstParseJSONFile("parse");
    JoinParseJSONFile(["Parse", "JSON", "file"]);
    LabelFromWords(s, ["Parse", "JSON", "File"], ["parse", "JSON", "file"], ["Parse", "JSON", "file"]);
  }

  /** Test table of `Labelize`: "ParseJSONFile" gives "Parse JSON file". */
  lemma {:induction false} LabelParseJSONFile()
    ensures LabelOf("ParseJSONFile") == "Parse JSON file"
  {
    WordsParseJSONFile("ParseJSONFile");
    LabelOfParseJSONFile("ParseJSONFile");
  }

  lemma {:induction false} CamelSimpleTestStep0(s: string)
    requires |s| == 10 && s[0] == 's' && s[1] == 'i' && s[2] == 'm' && s[3] == 'p' && s[4] == 'l' && s[5] == 'e' &&
      s[6] == 'T' && s[7] == 'e' && s[8] == 's' && s[9] == 't'
    ensures CamelSplit(s, 0) == "simpl" + CamelSplit(s, 5)
  {
    assert NoBreakIn(s, 4, 5);
    assert NoBreakIn(s, 3, 5);
    assert NoBreakIn(s, 2, 5);
    assert NoBreakIn(s, 1, 5);
    CamelSplitCopies(s, 0, 5);
    assert s[0..5] == "simpl";
  }

  lemma {:induction false} CamelSimpleTestStep1(s: string)
    requires |s| == 10 && s[0] == 's' && s[1] == 'i' && s[2] == 'm' && s[3] == 'p' && s[4] == 'l' && s[5] == 'e' &&
      s[6] == 'T' && s[7] == 'e' && s[8] == 's' && s[9] == 't'
    ensures CamelSplit(s, 5) == "e T" + CamelSplit(s, 7)
  {
    UpperRunIs(s, 5, 0);
  }

  lemma {:induction false} CamelSimpleTestStep2(s: string)
    requires |s| == 10 && s[0] == 's' && s[1] == 'i' && s[2] == 'm' && s[3] == 'p' && s[4] == 'l' && s[5] == 'e' &&
      s[6] == 'T' && s[7] == 'e' && s[8] == 's' && s[9] == 't'
    ensures CamelSplit(s, 7) == "est" + CamelSplit(s, 10)
  {
    assert NoBreakIn(s, 9, 10);
    assert NoBreakIn(s, 8, 10);
    CamelSplitCopies(s, 7, 10);
    assert s[7..10] == "est";
  }

  lemma {:induction false} CamelSimpleTest(s: string)
    requires |s| == 10 && s[0] == 's' && s[1] == 'i' && s[2] == 'm' && s[3] == 'p' && s[4] == 'l' && s[5] == 'e' &&
      s[6] == 'T' && s[7] == 'e' && s[8] == 's' && s[9] == 't'
    ensures CamelSplit(s, 0) == "simple Test"
  {
    CamelSimpleTestStep0(s);
    CamelSimpleTestStep1(s);
    CamelSimpleTestStep2(s);
  }

  lemma {:induction false} DelimsSimpleTest(s: string)
    requires |s| == 11 && s[0] == 's' && s[1] == 'i' && s[2] == 'm' && s[3] == 'p' && s[4] == 'l' && s[5] == 'e' &&
      s[6] == ' ' && s[7] == 'T' && s[8] == 'e' && s[9] == 's' && s[10] == 't'
    ensures ReplaceDelims(s, 0, false) == "simple Test"
  {
    ReplaceDelimsCopies(s, 0, false);
  }

  lemma {:induction false} FieldsSimpleTest(s: string)
    requires s == "simple Test"
    ensures Fields(s) == ["simple", "Test"]
  {
    assert JoinWords(["simple", "Test"]) == "simple Test";
    FieldsOfJoin(["simple", "Test"]);
  }

  lemma {:induction false} WordsSimpleTest(s: string)
    requires s == "simpleTest"
    ensures Words(s) == ["simple", "Test"]
  {
    CamelSimpleTest(s);
    DelimsSimpleTest("simple Test");
    FieldsSimpleTest("simple Test");
  }

  lemma {:induction false} CaseSimpleTest(ws: seq<string>)
    requires ws == ["simple", "Test"]
    ensures CaseWords(ws) == ["simple", "test"]
  {
    assert ToUpper("simple")[0] == 'S';
    assert ToLower("simple") == "simple";
    assert ToUpper("Test")[1] == 'E';
    assert ToLower("Test") == "test";
  }

  lemma {:induction false} FirstSimpleTest(w: string)
    requires w == "simple"
    ensures !IsAcronym(w) && Title(w) == "Simple"
  {
    assert ToUpper(w)[0] == 'S';
    TitleOfPlainWord(w);
    assert UpperChar(w[0]) == 'S';
  }

  lemma {:induction false} JoinSimpleTest(ws: seq<string>)
    requires ws == ["Simple", "test"]
    ensures JoinWords(ws) == "Simple test"
  {
    assert JoinWords(ws[1..]) == "test";
  }

  lemma {:induction false} LabelOfSimpleTest(s: string)
    requires s != "" && Words(s) == ["simple", "Test"]
    ensures LabelOf(s) == "Simple test"
  {
    CaseSimpleTest(["simple", "Test"]);
    FirstSimpleTest("simple");
    JoinSimpleTest(["Simple", "test"]);
    LabelFromWords(s, ["simple", "Test"], ["simple", "test"], ["Simple", "test"]);
  }

  /** Test table of `Labelize`: "simpleTest" gives "Simple test". */
  lemma {:induction false} LabelSimpleTest()
    ensures LabelOf("simpleTest") == "Simple test"
  {
    WordsSimpleTest("simpleTest");
    LabelOfSimpleTest("simpleTest");
  }

  lemma {:induction false} CamelJSONStep0(s: string)
    requires |s| == 4 && s[0] == 'J' && s[1] == 'S' && s[2] == 'O' && s[3] == 'N'
    ensures CamelSplit(s, 0) == "JSON" + CamelSplit(s, 4)
  {
    UpperRunIs(s, 0, 4);
    UpperRunIs(s, 1, 3);
    UpperRunIs(s, 2, 2);
    UpperRunIs(s, 3, 1);
    assert NoBreakIn(s, 3, 4);
    assert NoBreakIn(s, 2, 4);
    assert NoBreakIn(s, 1, 4);
    CamelSplitCopies(s, 0, 4);
    assert s[0..4] == "JSON";
  }

  lemma {:induction false} CamelJSON(s: string)
    requires |s| == 4 && s[0] == 'J' && s[1] == 'S' && s[2] == 'O' && s[3] == 'N'
    ensures CamelSplit(s, 0) == "JSON"
  {
    CamelJSONStep0(s);
  }

  lemma {:induction false} DelimsJSON(s: string)
    requires |s| == 4 && s[0] == 'J' && s[1] == 'S' && s[2] == 'O' && s[3] == 'N'
    ensures ReplaceDelims(s, 0, false) == "JSON"
  {
    ReplaceDelimsCopies(s, 0, false);
  }

  lemma {:induction false} FieldsJSON(s: string)
    requires s == "JSON"
    ensures Fields(s) == ["JSON"]
  {
    assert JoinWords(["JSON"]) == "JSON";
    FieldsOfJoin(["JSON"]);
  }

  lemma {:induction false} WordsJSON(s: string)
    requires s == "JSON"
    ensures Words(s) == ["JSON"]
  {
    CamelJSON(s);
    DelimsJSON("JSON");
    FieldsJSON("JSON");
  }

  lemma {:induction false} CaseJSON(ws: seq<string>)
    requires ws == ["JSON"]
    ensures CaseWords(ws) == ["JSON"]
  {
    assert ToUpper("JSON") == "JSON";
  }

  lemma {:induction false} FirstJSON(w: string)
    requires w == "JSON"
    ensures IsAcronym(w)
  {
    assert ToUpper(w) == w;
  }

  lemma {:induction false} JoinJSON(ws: seq<string>)
    requires ws == ["JSON"]
    ensures JoinWords(ws) == "JSON"
  {
  }

  lemma {:induction false} LabelOfJSON(s: string)
    requires s != "" && Words(s) == ["JSON"]
    ensures LabelOf(s) == "JSON"
  {
    CaseJSON(["JSON"]);
    FirstJSON("JSON");
    JoinJSON(["JSON"]);
    LabelFromWords(s, ["JSON"], ["JSON"], ["JSON"]);
  }

  /** Test table of `Labelize`: "JSON" gives "JSON". */
  lemma {:induction false} LabelJSON()
    ensures LabelOf("JSON") == "JSON"
  {
    WordsJSON("JSON");
    LabelOfJSON("JSON");
  }

  lemma {:induction false} CamelHTTPServerStep0(s: string)
    requires |s| == 15 && s[0] == '_' && s[1] == '_' && s[2] == '_' && s[3] == 'H' && s[4] == 'T' && s[5] == 'T' &&
      s[6] == 'P' && s[7] == '_' && s[8] == '_' && s[9] == 'S' && s[10] == 'e' && s[11] == 'r' && s[12] == 'v' &&
      s[13] == 'e' && s[14] == 'r'
    ensures CamelSplit(s, 0) == "___HT" + CamelSplit(s, 5)
  {
    UpperRunIs(s, 3, 4);
    UpperRunIs(s, 4, 3);
    assert NoBreakIn(s, 4, 5);
    assert NoBreakIn(s, 3, 5);
    assert NoBreakIn(s, 2, 5);
    assert NoBreakIn(s, 1, 5);
    CamelSplitCopies(s, 0, 5);
    assert s[0..5] == "___HT";
  }

  lemma {:induction false} CamelHTTPServerStep1(s: string)
    requires |s| == 15 && s[0] == '_' && s[1] == '_' && s[2] == '_' && s[3] == 'H' && s[4] == 'T' && s[5] == 'T' &&
      s[6] == 'P' && s[7] == '_' && s[8] == '_' && s[9] == 'S' && s[10] == 'e' && s[11] == 'r' && s[12] == 'v' &&
      s[13] == 'e' && s[14] == 'r'
    ensures CamelSplit(s, 5) == "TP__S" + CamelSplit(s, 10)
  {
    UpperRunIs(s, 5, 2);
    UpperRunIs(s, 6, 1);
    UpperRunIs(s, 9, 1);
    assert NoBreakIn(s, 9, 10);
    assert NoBreakIn(s, 8, 10);
    assert NoBreakIn(s, 7, 10);
    assert NoBreakIn(s, 6, 10);
    CamelSplitCopies(s, 5, 10);
    assert s[5..10] == "TP__S";
  }

  lemma {:induction false} CamelHTTPServerStep2(s: string)
    requires |s| == 15 && s[0] == '_' && s[1] == '_' && s[2] == '_' && s[3] == 'H' && s[4] == 'T' && s[5] == 'T' &&
      s[6] == 'P' && s[7] == '_' && s[8] == '_' && s[9] == 'S' && s[10] == 'e' && s[11] == 'r' && s[12] == 'v' &&
      s[13] == 'e' && s[14] == 'r'
    ensures CamelSplit(s, 10) == "erver" + CamelSplit(s, 15)
  {
    assert NoBreakIn(s, 14, 15);
    assert NoBreakIn(s, 13, 15);
    assert NoBreakIn(s, 12, 15);
    assert NoBreakIn(s, 11, 15);
    CamelSplitCopies(s, 10, 15);
    assert s[10..15] == "erver";
  }

  lemma {:induction false} CamelHTTPServer(s: string)
    requires |s| == 15 && s[0] == '_' && s[1] == '_' && s[2] == '_' && s[3] == 'H' && s[4] == 'T' && s[5] == 'T' &&
      s[6] == 'P' && s[7] == '_' && s[8] == '_' && s[9] == 'S' && s[10] == 'e' && s[11] == 'r' && s[12] == 'v' &&
      s[13] == 'e' && s[14] == 'r'
    ensures CamelSplit(s, 0) == "___HTTP__Server"
  {
    CamelHTTPServerStep0(s);
    CamelHTTPServerStep1(s);
    CamelHTTPServerStep2(s);
  }

  lemma {:induction false} DelimsHTTPServerStep0(s: string)
    requires |s| == 15 && s[0] == '_' && s[1] == '_' && s[2] == '_' && s[3] == 'H' && s[4] == 'T' && s[5] == 'T' &&
      s[6] == 'P' && s[7] == '_' && s[8] == '_' && s[9] == 'S' && s[10] == 'e' && s[11] == 'r' && s[12] == 'v' &&
      s[13] == 'e' && s[14] == 'r'
    ensures ReplaceDelims(s, 0, false) == " " + ReplaceDelims(s, 3, true)
  {
    ReplaceDelimsRun(s, 0, 3, false);
  }

  lemma {:induction false} DelimsHTTPServerStep1(s: string)
    requires |s| == 15 && s[0] == '_' && s[1] == '_' && s[2] == '_' && s[3] == 'H' && s[4] == 'T' && s[5] == 'T' &&
      s[6] == 'P' && s[7] == '_' && s[8] == '_' && s[9] == 'S' && s[10] == 'e' && s[11] == 'r' && s[12] == 'v' &&
      s[13] == 'e' && s[14] == 'r'
    ensures ReplaceDelims(s, 3, true) == "HTTP" + ReplaceDelims(s, 7, false)
  {
    ReplaceDelimsCopiesUpTo(s, 3, 7, true);
    assert s[3..7] == "HTTP";
  }

  lemma {:induction false} DelimsHTTPServerStep2(s: string)
    requires |s| == 15 && s[0] == '_' && s[1] == '_' && s[2] == '_' && s[3] == 'H' && s[4] == 'T' && s[5] == 'T' &&
      s[6] == 'P' && s[7] == '_' && s[8] == '_' && s[9] == 'S' && s[10] == 'e' && s[11] == 'r' && s[12] == 'v' &&
      s[13] == 'e' && s[14] == 'r'
    ensures ReplaceDelims(s, 7, false) == " " + ReplaceDelims(s, 9, true)
  {
    ReplaceDelimsRun(s, 7, 9, false);
  }

  lemma {:induction false} DelimsHTTPServerStep3(s: string)
    requires |s| == 15 && s[0] == '_' && s[1] == '_' && s[2] == '_' && s[3] == 'H' && s[4] == 'T' && s[5] == 'T' &&
      s[6] == 'P' && s[7] == '_' && s[8] == '_' && s[9] == 'S' && s[10] == 'e' && s[11] == 'r' && s[12] == 'v' &&
      s[13] == 'e' && s[14] == 'r'
    ensures ReplaceDelims(s, 9, true) == "Server" + ReplaceDelims(s, 15, false)
  {
    ReplaceDelimsCopiesUpTo(s, 9, 15, true);
    assert s[9..15] == "Server";
  }

  lemma {:induction false} DelimsHTTPServer(s: string)
    requires |s| == 15 && s[0] == '_' && s[1] == '_' && s[2] == '_' && s[3] == 'H' && s[4] == 'T' && s[5] == 'T' &&
      s[6] == 'P' && s[7] == '_' && s[8] == '_' && s[9] == 'S' && s[10] == 'e' && s[11] == 'r' && s[12] == 'v' &&
      s[13] == 'e' && s[14] == 'r'
    ensures ReplaceDelims(s, 0, false) == " HTTP Server"
  {
    DelimsHTTPServerStep0(s);
    DelimsHTTPServerStep1(s);
    DelimsHTTPServerStep2(s);
    DelimsHTTPServerStep3(s);
    assert ReplaceDelims(s, 15, false) == "";
  }

  lemma {:induction false} FieldsHTTPServer(s: string)
    requires s == " HTTP Server"
    ensures Fields(s) == ["HTTP", "Server"]
  {
    assert JoinWords(["HTTP", "Server"]) == "HTTP Server";
    FieldsOfJoin(["HTTP", "Server"]);
    assert " HTTP Server"[1..] == "HTTP Server";
  }

  lemma {:induction false} WordsHTTPServer(s: string)
    requires s == "___HTTP__Server"
    ensures Words(s) == ["HTTP", "Server"]
  {
    CamelHTTPServer(s);
    DelimsHTTPServer("___HTTP__Server");
    FieldsHTTPServer(" HTTP Server");
  }

  lemma {:induction false} CaseHTTPServer(ws: seq<string>)
    requires ws == ["HTTP", "Server"]
    ensures CaseWords(ws) == ["HTTP", "server"]
  {
    assert ToUpper("HTTP") == "HTTP";
    assert ToUpper("Server")[1] == 'E';
    assert ToLower("Server") == "server";
  }

  lemma {:induction false} FirstHTTPServer(w: string)
    requires w == "HTTP"
    ensures IsAcronym(w)
  {
    assert ToUpper(w) == w;
  }

  lemma {:induction false} JoinHTTPServer(ws: seq<string>)
    requires ws == ["HTTP", "server"]
    ensures JoinWords(ws) == "HTTP server"
  {
    assert JoinWords(ws[1..]) == "server";
  }

  lemma {:induction false} LabelOfHTTPServer(s: string)
    requires s != "" && Words(s) == ["HTTP", "Server"]
    ensures LabelOf(s) == "HTTP server"
  {
    CaseHTTPServer(["HTTP", "Server"]);
    FirstHTTPServer("HTTP");
    JoinHTTPServer(["HTTP", "server"]);
    LabelFromWords(s, ["HTTP", "Server"], ["HTTP", "server"], ["HTTP", "server"]);
  }

  /** Test table of `Labelize`: "___HTTP__Server" gives "HTTP server". */
  lemma {:induction false} LabelHTTPServer()
    ensures LabelOf("___HTTP__Server") == "HTTP server"
  {
    WordsHTTPServer("___HTTP__Server");
    LabelOfHTTPServer("___HTTP__Server");
  }

  lemma {:induction false} CamelXMLHTTPRequestStep0(s: string)
    requires |s| == 14 && s[0] == 'X' && s[1] == 'M' && s[2] == 'L' && s[3] == 'H' && s[4] == 'T' && s[5] == 'T' &&
      s[6] == 'P' && s[7] == 'R' && s[8] == 'e' && s[9] == 'q' && s[10] == 'u' && s[11] == 'e' && s[12] == 's' &&
      s[13] == 't'
    ensures CamelSplit(s, 0) == "XMLHTTP Re" + CamelSplit(s, 9)
  {
    UpperRunIs(s, 0, 8);
    assert s[0..7] == "XMLHTTP" && s[7..9] == "Re";
  }

  lemma {:induction false} CamelXMLHTTPRequestStep1(s: string)
    requires |s| == 14 && s[0] == 'X' && s[1] == 'M' && s[2] == 'L' && s[3] == 'H' && s[4] == 'T' && s[5] == 'T' &&
      s[6] == 'P' && s[7] == 'R' && s[8] == 'e' && s[9] == 'q' && s[10] == 'u' && s[11] == 'e' && s[12] == 's' &&
      s[13] == 't'
    ensures CamelSplit(s, 9) == "quest" + CamelSplit(s, 14)
  {
    assert NoBreakIn(s, 13, 14);
    assert NoBreakIn(s, 12, 14);
    assert NoBreakIn(s, 11, 14);
    assert NoBreakIn(s, 10, 14);
    CamelSplitCopies(s, 9, 14);
    assert s[9..14] == "quest";
  }

  lemma {:induction false} CamelXMLHTTPRequest(s: string)
    requires |s| == 14 && s[0] == 'X' && s[1] == 'M' && s[2] == 'L' && s[3] == 'H' && s[4] == 'T' && s[5] == 'T' &&
      s[6] == 'P' && s[7] == 'R' && s[8] == 'e' && s[9] == 'q' && s[10] == 'u' && s[11] == 'e' && s[12] == 's' &&
      s[13] == 't'
    ensures CamelSplit(s, 0) == "XMLHTTP Request"
  {
    CamelXMLHTTPRequestStep0(s);
    CamelXMLHTTPRequestStep1(s);
  }

  lemma {:induction false} DelimsXMLHTTPRequest(s: string)
    requires |s| == 15 && s[0] == 'X' && s[1] == 'M' && s[2] == 'L' && s[3] == 'H' && s[4] == 'T' && s[5] == 'T' &&
      s[6] == 'P' && s[7] == ' ' && s[8] == 'R' && s[9] == 'e' && s[10] == 'q' && s[11] == 'u' && s[12] == 'e' &&
      s[13] == 's' && s[14] == 't'
    ensures ReplaceDelims(s, 0, false) == "XMLHTTP Request"
  {
    ReplaceDelimsCopies(s, 0, false);
  }

  lemma {:induction false} FieldsXMLHTTPRequest(s: string)
    requires s == "XMLHTTP Request"
    ensures Fields(s) == ["XMLHTTP", "Request"]
  {
    assert JoinWords(["XMLHTTP", "Request"]) == "XMLHTTP Request";
    FieldsOfJoin(["XMLHTTP", "Request"]);
  }

  lemma {:induction false} WordsXMLHTTPRequest(s: string)
    requires s == "XMLHTTPRequest"
    ensures Words(s) == ["XMLHTTP", "Request"]
  {
    CamelXMLHTTPRequest(s);
    DelimsXMLHTTPRequest("XMLHTTP Request");
    FieldsXMLHTTPRequest("XMLHTTP Request");
  }

  lemma {:induction false} CaseXMLHTTPRequest(ws: seq<string>)
    requires ws == ["XMLHTTP", "Request"]
    ensures CaseWords(ws) == ["XMLHTTP", "request"]
  {
    assert ToUpper("XMLHTTP") == "XMLHTTP";
    assert ToUpper("Request")[1] == 'E';
    assert ToLower("Request") == "request";
  }

  lemma {:induction false} FirstXMLHTTPRequest(w: string)
    requires w == "XMLHTTP"
    ensures IsAcronym(w)
  {
    assert ToUpper(w) == w;
  }

  lemma {:induction false} JoinXMLHTTPRequest(ws: seq<string>)
    requires ws == ["XMLHTTP", "request"]
    ensures JoinWords(ws) == "XMLHTTP request"
  {
    assert JoinWords(ws[1..]) == "request";
  }

  lemma {:induction false} LabelOfXMLHTTPRequest(s: string)
    requires s != "" && Words(s) == ["XMLHTTP", "Request"]
    ensures LabelOf(s) == "XMLHTTP request"
  {
    CaseXMLHTTPRequest(["XMLHTTP", "Request"]);
    FirstXMLHTTPRequest("XMLHTTP");
    JoinXMLHTTPRequest(["XMLHTTP", "request"]);
    LabelFromWords(s, ["XMLHTTP", "Request"], ["XMLHTTP", "request"], ["XMLHTTP", "request"]);
  }

  /** Test table of `Labelize`: "XMLHTTPRequest" gives "XMLHTTP request". */
  lemma {:induction false} LabelXMLHTTPRequest()
    ensures LabelOf("XMLHTTPRequest") == "XMLHTTP request"
  {
    WordsXMLHTTPRequest("XMLHTTPRequest");
    LabelOfXMLHTTPRequest("XMLHTTPRequest");
  }

  lemma {:induction false} CamelUserIDStep0(s: string)
    requires |s| == 6 && s[0] == 'U' && s[1] == 's' && s[2] == 'e' && s[3] == 'r' && s[4] == 'I' && s[5] == 'D'
    ensures CamelSplit(s, 0) == "Use" + CamelSplit(s, 3)
  {
    UpperRunIs(s, 0, 1);
    assert NoBreakIn(s, 2, 3);
    assert NoBreakIn(s, 1, 3);
    CamelSplitCopies(s, 0, 3);
    assert s[0..3] == "Use";
  }

  lemma {:induction false} CamelUserIDStep1(s: string)
    requires |s| == 6 && s[0] == 'U' && s[1] == 's' && s[2] == 'e' && s[3] == 'r' && s[4] == 'I' && s[5] == 'D'
    ensures CamelSplit(s, 3) == "r I" + CamelSplit(s, 5)
  {
    UpperRunIs(s, 3, 0);
  }

  lemma {:induction false} CamelUserIDStep2(s: string)
    requires |s| == 6 && s[0] == 'U' && s[1] == 's' && s[2] == 'e' && s[3] == 'r' && s[4] == 'I' && s[5] == 'D'
    ensures CamelSplit(s, 5) == "D" + CamelSplit(s, 6)
  {
    UpperRunIs(s, 5, 1);
    CamelSplitCopies(s, 5, 6);
    assert s[5..6] == "D";
  }

  lemma {:induction false} CamelUserID(s: string)
    requires |s| == 6 && s[0] == 'U' && s[1] == 's' && s[2] == 'e' && s[3] == 'r' && s[4] == 'I' && s[5] == 'D'
    ensures CamelSplit(s, 0) == "User ID"
  {
    CamelUserIDStep0(s);
    CamelUserIDStep1(s);
    CamelUserIDStep2(s);
  }

  lemma {:induction false} DelimsUserID(s: string)
    requires |s| == 7 && s[0] == 'U' && s[1] == 's' && s[2] == 'e' && s[3] == 'r' && s[4] == ' ' && s[5] == 'I' &&
      s[6] == 'D'
    ensures ReplaceDelims(s, 0, false) == "User ID"
  {
    ReplaceDelimsCopies(s, 0, false);
  }

  lemma {:induction false} FieldsUserID(s: string)
    requires s == "User ID"
    ensures Fields(s) == ["User", "ID"]
  {
    assert JoinWords(["User", "ID"]) == "User ID";
    FieldsOfJoin(["User", "ID"]);
  }

  lemma {:induction false} WordsUserID(s: string)
    requires s == "UserID"
    ensures Words(s) == ["User", "ID"]
  {
    CamelUserID(s);
    DelimsUserID("User ID");
    FieldsUserID("User ID");
  }

  lemma {:induction false} CaseUserID(ws: seq<string>)
    requires ws == ["User", "ID"]
    ensures CaseWords(ws) == ["user", "ID"]
  {
    assert ToUpper("User")[1] == 'S';
    assert ToLower("User") == "user";
    assert ToUpper("ID") == "ID";
  }

  lemma {:induction false} FirstUserID(w: string)
    requires w == "user"
    ensures !IsAcronym(w) && Title(w) == "User"
  {
    assert ToUpper(w)[0] == 'U';
    TitleOfPlainWord(w);
    assert UpperChar(w[0]) == 'U';
  }

  lemma {:induction false} JoinUserID(ws: seq<string>)
    requires ws == ["User", "ID"]
    ensures JoinWords(ws) == "User ID"
  {
    assert JoinWords(ws[1..]) == "ID";
  }

  lemma {:induction false} LabelOfUserID(s: string)
    requires s != "" && Words(s) == ["User", "ID"]
    ensures LabelOf(s) == "User ID"
  {
    CaseUserID(["User", "ID"]);
    FirstUserID("user");
    JoinUserID(["User", "ID"]);
    LabelFromWords(s, ["User", "ID"], ["user", "ID"], ["User", "ID"]);
  }

  /** Test table of `Labelize`: "UserID" gives "User ID". */
  lemma {:induction false} LabelUserID()
    ensures LabelOf("UserID") == "User ID"
  {
    WordsUserID("UserID");
    LabelOfUserID("UserID");
  }

  // ---------------------------------------------------------------------
  // Matches of the camel-case pattern do not overlap
  // ---------------------------------------------------------------------

  lemma {:induction false} CamelSplitXABc(s: string)
    requires |s| == 4 && s[0] == 'x' && s[1] == 'A' && s[2] == 'B' && s[3] == 'c'
    ensures CamelSplit(s, 0) == "x ABc"
  {
    UpperRunIs(s, 0, 0);
    CamelBreakStep(s, 0);
    UpperRunIs(s, 3, 0);
    UpperRunIs(s, 2, 1);
    assert NoBreakIn(s, 3, 4);
    assert NoBreakIn(s, 2, 4);
    CamelSplitCopies(s, 2, 4);
    assert s[2..4] == "Bc";
  }

  /** After the match "xA" the scan resumes at "B", so "ABc" never matches
      the acronym alternative and no space goes between "B" and "c". */
  lemma {:induction false} CamelSplitNoOverlap()
    ensures CamelSplit("xABc", 0) == "x ABc"
  {
    CamelSplitXABc("xABc");
  }
}
