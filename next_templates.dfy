/** The fixed files `src/lib/nextSetup.js` writes into a fresh Next.js app: global
    styles, the home-page style module, the root layout and the home page. */
module NextTemplates {
  import opened Text

  /** `globalsTemplate()`. */
  const GlobalsTemplate: string :=
@"@use ""sass:color"";
@font-face {
    font-family: ""Urbanist"";
    src: url(""/Urbanist-Regular.woff"") format(""woff"");
    font-weight: 400;
    font-style: normal;
    font-display: swap;
}

$font-family-base: ""Urbanist"", ""Inter"", ""Segoe UI"", system-ui, -apple-system, sans-serif;
$body-bg: #f4f6fb;
$body-color: #0d2440;
$muted-color: #5b6c84;

@mixin smooth-font {
    -webkit-font-smoothing: antialiased;
    -moz-osx-font-smoothing: grayscale;
}

* {
    margin: 0;
    padding: 0;
    box-sizing: border-box;
}

:root {
    font-family: $font-family-base;
    background-color: $body-bg;
    color: $body-color;
}

html,
body {
    height: 100%;
    width: 100%;
}

body {
    font-family: inherit;
    background-color: inherit;
    color: inherit;
    line-height: 1.5;
    @include smooth-font;
}

p {
    color: $muted-color;

    a {
        color: inherit;
        text-decoration: none;
        transition: color 0.15s ease;

        &:hover {
            color: color.adjust($body-color, $lightness: -10%);
        }

        &:focus-visible {
            outline: 2px solid color.adjust($body-color, $lightness: 20%);
            outline-offset: 3px;
        }
    }
}

img {
    max-width: 100%;
    display: block;
    height: auto;
}
"

  const PageModuleHead: string :=
@"@use ""sass:color"";

$palette-1: #e7f0fa;
$palette-2: #7ba4d0;
$palette-3: #2e5e99;
$palette-4: #0d2440;

$bg: $palette-1;
$panel: #ffffff;
$text-primary: $palette-3;
$text-secondary: #40546a;
$muted: #7a8aa3;

$btn-accent-start: $palette-2;
$btn-accent-end: $palette-3;
$btn-text: #ffffff;
$radius-lg: 12px;
$max-width: 1100px;

@mixin focus-ring($color) {
    outline: 3px solid color.change($color, $alpha: 0.18);
    outline-offset: 2px;
}

"

  const PageModuleRest: string :=
@" {
    background: $bg;
    min-height: 100vh;
    display: flex;
    align-items: center;
    justify-content: center;
    padding: 48px 20px;
}

.main {
    width: 100%;
    max-width: $max-width;
    background: linear-gradient(180deg, color.change($panel, $alpha: 0.6), color.change($panel, $alpha: 0.4));
    border-radius: 20px;
    padding: 56px 64px;
    box-shadow: 0 10px 30px color.change($palette-4, $alpha: 0.08);
    display: flex;
    flex-direction: column;
    gap: 32px;
}

.header {
    display: flex;
    align-items: center;
    justify-content: space-between;
}

.logo {
    width: 240px;
    height: auto;
    max-width: 100%;
}

.nav {
    display: flex;
    gap: 20px;
}

.nav a {
    color: $text-primary;
    font-weight: 600;
    text-decoration: none;
    opacity: 0.9;
}

.hero {
    display: flex;
    flex-direction: column;
    gap: 20px;
}

.h1 {
    font-size: 44px;
    line-height: 1.05;
    margin: 0;
    color: $text-primary;
    font-weight: 700;
}

.lead {
    max-width: 680px;
    color: $text-secondary;
    font-size: 18px;
    line-height: 1.6;
}

.ctas {
    display: flex;
    gap: 16px;
    margin-top: 8px;
}

a.primary {
    display: inline-flex;
    align-items: center;
    gap: 10px;
    padding: 12px 20px;
    border-radius: 999px;
    background: linear-gradient(90deg, $btn-accent-start, $btn-accent-end);
    color: $btn-text;
    font-weight: 700;
    text-decoration: none;
    box-shadow: 0 6px 18px color.change($palette-3, $alpha: 0.18);
    transition: transform 0.12s ease, box-shadow 0.12s ease;

    &:hover {
        transform: translateY(-2px);
    }

    &:focus {
        @include focus-ring($btn-accent-start);
    }
}

a.secondary {
    display: inline-flex;
    align-items: center;
    padding: 12px 20px;
    border-radius: 999px;
    color: $text-primary;
    border: 1px solid color.change($palette-4, $alpha: 0.25);
    background: transparent;
    text-decoration: none;
    font-weight: 600;
}

.footer {
    color: $muted;
    font-size: 13px;
}

@media (max-width: 880px) {
    .main { padding: 36px; }
    .h1 { font-size: 32px; }
}

@media (max-width: 640px) {
    .page { padding: 36px 16px; }
    .main { padding: 32px; }
    .header { flex-direction: column; align-items: flex-start; gap: 16px; }
    .nav { flex-wrap: wrap; gap: 12px; }
    .logo { width: 200px; }
    .h1 { font-size: 30px; }
    .lead { font-size: 16px; max-width: 100%; }
}

@media (max-width: 480px) {
    .page { padding: 28px 24px; }
    .header { align-items: center; text-align: center; }
    .nav { justify-content: center; width: 100%; }
    .hero { align-items: center; text-align: center; }
    .ctas { flex-direction: column; width: 100%; }
    .ctas a { justify-content: center; width: 100%; }
    .logo { width: 190px; }
}

@media (prefers-color-scheme: dark) {
    .page { background: $palette-4; }
    .main { background: linear-gradient(180deg, color.change(#081424, $alpha: 0.85), color.change(#081424, $alpha: 0.78)); }
    .nav a, .h1, .a.secondary { color: $palette-1; }
    .lead { color: #c7d7ec; }
    a.secondary { border: 1px solid color.change($palette-1, $alpha: 0.25); }
}
"

  const LayoutTsTypes: string :=
    "import " + "type { Metadata } from 'next';\nimport type { ReactNode } from 'react';\n"

  const GlobalsImport: string := "import " + "'./globals.scss';"

  const LayoutTsRest: string :=
@": Metadata = {
  title: 'SassWave UI',
  description: 'Generated by SassWave'
};

export default function RootLayout({ children }: { children: ReactNode }) {
  return (
    <html lang=""en"">
      <body>{children}</body>
    </html>
  );
}
"

  const LayoutJsRest: string :=
@" = {
  title: 'SassWave UI',
  description: 'Generated by SassWave'
};

export default function RootLayout({ children }) {
  return (
    <html lang=""en"">
      <body>{children}</body>
    </html>
  );
}
"

  const PageBody: string :=
@"
import Image from 'next/image';
import Link from 'next/link';
import styles from './page.module.scss';

export default function Home() {
  return (
    <div className={styles.page}>
      <main className={styles.main}>
        <header className={styles.header}>
          <Image src=""/wordmark.png"" alt=""SassWave logo"" width={240} height={56} className={styles.logo} priority />
          <nav className={styles.nav} aria-label=""Primary"">
            <Link href=""https://sasswave.in/components/"" target=""_blank"" rel=""noopener noreferrer"">Components</Link>
            <Link href=""https://sasswave.in/docs/"" target=""_blank"" rel=""noopener noreferrer"">Docs</Link>
          </nav>
        </header>

        <section className={styles.hero}>
          <h1 className={styles.h1}>Design-ready React + Next.js components - built with SCSS</h1>
          <p className={styles.lead}>
            SassWave is a small, focused UI library that prefers SCSS and accessible, animated components.
            Ship faster with prebuilt building blocks.
          </p>
          <div className={styles.ctas}>
            <Link className={styles.primary} href=""https://sasswave.in/docs/get-started/installation/"" target=""_blank"" rel=""noopener noreferrer"">
              Get Started
            </Link>
            <Link className={styles.secondary} href=""https://sasswave.in/components/"" target=""_blank"" rel=""noopener noreferrer"">
              Browse Components
            </Link>
          </div>
        </section>

        "

  const PageFooter: string :=
@" className={styles.footer}>
          <p>© {new Date().getFullYear()} SassWave -- Built with SCSS</p>
        </footer>
      </main>
    </div>
  );
}
"

  const MetadataExport: string := "export const metadata"

  const PageDirective: string := "\"use client\";"

  /** `pageModuleTemplate()`: it defines the `.page` class the home page uses. */
  function PageModuleTemplate(): (r: string)
    ensures Contains(r, ".page")
    ensures StartsWith(r, PageModuleHead)
  {
    ConcatContainsPart([PageModuleHead, ".page", PageModuleRest], 1);
    ConcatStartsWithFirst([PageModuleHead, ".page", PageModuleRest]);
    Concat([PageModuleHead, ".page", PageModuleRest])
  }

  function LayoutParts(isTs: bool): seq<string> {
    if isTs then [LayoutTsTypes, GlobalsImport, "\n\n", MetadataExport, LayoutTsRest]
    else [GlobalsImport, "\n\n", MetadataExport, LayoutJsRest]
  }

  /** `layoutTemplate(isTs)`: a server component (no client directive on top) that
      imports the global styles and exports the page metadata. */
  function LayoutTemplate(isTs: bool): (r: string)
    ensures Contains(r, MetadataExport) && Contains(r, GlobalsImport)
    ensures !HasClientDirective(r)
  {
    var parts := LayoutParts(isTs);
    var k := if isTs then 1 else 0;
    ConcatContainsPart(parts, k);
    ConcatContainsPart(parts, k + 2);
    ConcatStartsWithFirst(parts);
    var r := Concat(parts);
    assert parts[0][0] == 'i';
    assert r[0] == 'i';
    r
  }

  /** `pageTemplate()`: a client component that opens with the directive and has a
      footer for the optional 3D section to go before. */
  function PageTemplate(): (r: string)
    ensures StartsWith(r, PageDirective) && HasClientDirective(r)
    ensures Contains(r, "<footer")
  {
    ConcatContainsPart([PageDirective, PageBody, "<footer", PageFooter], 2);
    ConcatStartsWithFirst([PageDirective, PageBody, "<footer", PageFooter]);
    Concat([PageDirective, PageBody, "<footer", PageFooter])
  }
}
