/** The display sink: each Streamlit call the application makes
    (`st.subheader`, `st.write`, `st.table`, `st.markdown`, `st.error`)
    becomes one event appended to a log, in call order. */
module Streamlit {
  import opened JsonValue

  /** One table row: column name and cell value, in column order. */
  type Row = seq<(string, Json)>

  datatype Event =
    | Subheader(title: string)
    | Write(value: Json)
    | Table(rows: seq<Row>)
    | Markdown(text: string)
    | Error(message: string)

  class Display {
    var events: seq<Event>

    constructor ()
      ensures events == []
    {
      events := [];
    }

    method Subheader(title: string)
      modifies this
      ensures events == old(events) + [Event.Subheader(title)]
    {
      events := events + [Event.Subheader(title)];
    }

    method Write(value: Json)
      modifies this
      ensures events == old(events) + [Event.Write(value)]
    {
      events := events + [Event.Write(value)];
    }

    method Table(rows: seq<Row>)
      modifies this
      ensures events == old(events) + [Event.Table(rows)]
    {
      events := events + [Event.Table(rows)];
    }

    method Markdown(text: string)
      modifies this
      ensures events == old(events) + [Event.Markdown(text)]
    {
      events := events + [Event.Markdown(text)];
    }

    method Error(message: string)
      modifies this
      ensures events == old(events) + [Event.Error(message)]
    {
      events := events + [Event.Error(message)];
    }
  }
}
