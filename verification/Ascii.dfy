/** Letter case, as far as ASCII goes. */
module Ascii {
  function Lower(c: char): char {
    if 'A' <= c <= 'Z' then c - 'A' + 'a' else c
  }
}
