/** The list items both generators render. */
module Markdown {

  /** `- x` on a line of its own. */
  function Bullet(x: string): string {
    "- " + x + "\n"
  }

  /** `- **x**` on a line of its own. */
  function BoldBullet(x: string): string {
    "- **" + x + "**\n"
  }
}
