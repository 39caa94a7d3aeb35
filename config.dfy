/** The game's configuration (config.js) that the game loop reads: the two messages of the ending. */
module Config {
  /** The message shown once the boss is beaten. */
  const Thanks: string := "Thank you for helping Raphael beat Shredder. But there is someone else who needs you."
  /** The final message; `|` breaks a line. */
  const Proposal: string :=
    "Linzi, |I love you so much. Today and always. I want us to grow old and have adventures together forever. | |Will you marry me?"
}
