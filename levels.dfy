/**
  The static level table of the tracing game: three levels, each an ordered
  list of five symbols the child traces, with a colour theme.
 */
module Levels {

  /** Colours of a level's theme, as CSS colour strings, and its icon. */
  datatype Theme = Theme(primary: string, secondary: string, background: string, accent: string, icon: string)

  datatype Level = Level(id: string, title: string, subtitle: string, content: seq<string>, theme: Theme)

  /** Every level of the table has this many symbols. */
  const SymbolsPerLevel: nat := 5

  const LEVELS: seq<Level> := [
    Level("name", "TU NOMBRE", "¡Vamos Mateo!", ["M", "A", "T", "E", "O"],
          Theme("#0099FF", "#FFD700", "#E6F7FF", "#FF4444", "\U{1F9B8}\U{200D}\U{2642}\U{FE0F}")),
    Level("numbers", "NÚMEROS", "¡A toda velocidad!", ["1", "2", "3", "4", "5"],
          Theme("#FF4444", "#000000", "#FFF0F0", "#FFD700", "\U{1F3CE}\U{FE0F}")),
    Level("vowels", "VOCALES", "¡Mundo Animal!", ["A", "E", "I", "O", "U"],
          Theme("#4CAF50", "#FF9800", "#F1F8E9", "#795548", "\U{1F981}"))
  ]

  /** Index of the final level; completing it leads to the celebration screen. */
  const LastLevel: nat := |LEVELS| - 1

  /** The symbols of level `level`, in tracing order. */
  function Content(level: nat): (r: seq<string>)
    requires level < |LEVELS|
    ensures |r| == SymbolsPerLevel
  {
    LEVELS[level].content
  }

  /** The three colours a celebration particle may take: primary, secondary and accent. */
  function Palette(t: Theme): (r: seq<string>)
    ensures |r| == 3
    ensures forall c :: c in r <==> c == t.primary || c == t.secondary || c == t.accent
  {
    [t.primary, t.secondary, t.accent]
  }
}
